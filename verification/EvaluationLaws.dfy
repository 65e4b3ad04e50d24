/** What the evaluator's answer depends on, and what it does not. */
module EvaluationLaws {
  import opened Api
  import opened Evaluation

  /** The final action is the one of highest priority that anything in the scan asks for, and Allow
      when nothing asks. Nothing else about the scan matters. */
  lemma FinalAction(cel: Engine, policies: seq<Policy>, targets: seq<Target>, escalate: bool, a: Action)
    ensures Top(cel, Scanned(policies, targets, escalate)) == a <==>
            && (forall x :: InScan(policies, targets, escalate, x) ==> Priority(Asks(cel, x)) <= Priority(a))
            && (a == Allow || exists x :: InScan(policies, targets, escalate, x) && Asks(cel, x) == a)
  {
    var items := Scanned(policies, targets, escalate);
    TopIsHighest(cel, items);
    forall x ensures x in items <==> InScan(policies, targets, escalate, x) {
      ScannedExactly(policies, targets, escalate, x);
    }
    hide Scanned, InScan, Asks;
  }

  /** Every rule of the first policies is in the second, under the same failure mode. */
  predicate Covers(policies: seq<Policy>, policies': seq<Policy>) {
    forall p, r :: p in policies && r in p.rules ==>
      exists p' :: p' in policies' && r in p'.rules && p'.FailsClosed() == p.FailsClosed()
  }

  /** More rules, more targets, or a cascade scan where there was none never lower the action. */
  lemma NeverLowers(cel: Engine, policies: seq<Policy>, policies': seq<Policy>, targets: seq<Target>, targets': seq<Target>,
                    escalate: bool, escalate': bool)
    requires Covers(policies, policies') && (forall t :: t in targets ==> t in targets') && (escalate' ==> escalate)
    ensures Priority(Top(cel, Scanned(policies, targets, escalate))) <= Priority(Top(cel, Scanned(policies', targets', escalate')))
  {
    var a, a' := Top(cel, Scanned(policies, targets, escalate)), Top(cel, Scanned(policies', targets', escalate'));
    FinalAction(cel, policies, targets, escalate, a);
    FinalAction(cel, policies', targets', escalate', a');
    hide Scanned, Top;
    if a != Allow {
      var x :| InScan(policies, targets, escalate, x) && Asks(cel, x) == a;
      var p' :| p' in policies' && x.rule in p'.rules && p'.FailsClosed() == x.policy.FailsClosed();
      assert InScan(policies', targets', escalate', Item(p', x.rule, x.scope));
      assert Asks(cel, Item(p', x.rule, x.scope)) == a;
    }
  }

  lemma AddingPolicies(cel: Engine, policies: seq<Policy>, more: seq<Policy>, targets: seq<Target>, escalate: bool)
    ensures Priority(Top(cel, Scanned(policies, targets, escalate))) <= Priority(Top(cel, Scanned(policies + more, targets, escalate)))
  {
    assert Covers(policies, policies + more);
    NeverLowers(cel, policies, policies + more, targets, targets, escalate, escalate);
  }

  lemma PriorityInjective(a: Action, b: Action)
    requires Priority(a) == Priority(b)
    ensures a == b
  {
  }

  lemma SameBothWays(cel: Engine, policies: seq<Policy>, policies': seq<Policy>, targets: seq<Target>, targets': seq<Target>, escalate: bool)
    requires Covers(policies, policies') && Covers(policies', policies)
    requires forall t :: t in targets <==> t in targets'
    ensures Top(cel, Scanned(policies, targets, escalate)) == Top(cel, Scanned(policies', targets', escalate))
  {
    NeverLowers(cel, policies, policies', targets, targets', escalate, escalate);
    NeverLowers(cel, policies', policies, targets', targets, escalate, escalate);
    PriorityInjective(Top(cel, Scanned(policies, targets, escalate)), Top(cel, Scanned(policies', targets', escalate)));
  }

  lemma SameMembers<T(!new)>(s: seq<T>, s': seq<T>)
    requires multiset(s) == multiset(s')
    ensures forall x :: x in s <==> x in s'
  {
    forall x ensures x in s <==> x in s' {
      assert x in s <==> x in multiset(s);
      assert x in s' <==> x in multiset(s');
    }
  }

  /** Neither the order of the policies nor that of the affected targets changes the action. */
  lemma OrderIrrelevant(cel: Engine, policies: seq<Policy>, policies': seq<Policy>, targets: seq<Target>, targets': seq<Target>, escalate: bool)
    requires multiset(policies) == multiset(policies') && multiset(targets) == multiset(targets')
    ensures Top(cel, Scanned(policies, targets, escalate)) == Top(cel, Scanned(policies', targets', escalate))
  {
    SameMembers(policies, policies');
    SameMembers(targets, targets');
    assert Covers(policies, policies') && Covers(policies', policies);
    SameBothWays(cel, policies, policies', targets, targets', escalate);
  }

  /** Nor does the order of the rules within a policy. */
  lemma RuleOrderIrrelevant(cel: Engine, policies: seq<Policy>, i: nat, rules: seq<Rule>, targets: seq<Target>, escalate: bool)
    requires i < |policies| && multiset(rules) == multiset(policies[i].rules)
    ensures Top(cel, Scanned(policies, targets, escalate))
         == Top(cel, Scanned(policies[i := policies[i].(rules := rules)], targets, escalate))
  {
    var p' := policies[i].(rules := rules);
    var policies' := policies[i := p'];
    SameMembers(rules, policies[i].rules);
    assert Covers(policies, policies') by {
      forall p, r | p in policies && r in p.rules
        ensures exists q :: q in policies' && r in q.rules && q.FailsClosed() == p.FailsClosed()
      {
        var j :| 0 <= j < |policies| && policies[j] == p;
        assert policies'[j] in policies' && r in policies'[j].rules;
      }
    }
    assert Covers(policies', policies) by {
      forall p, r | p in policies' && r in p.rules
        ensures exists q :: q in policies && r in q.rules && q.FailsClosed() == p.FailsClosed()
      {
        var j :| 0 <= j < |policies'| && policies'[j] == p;
        assert policies[j] in policies && r in policies[j].rules;
      }
    }
    SameBothWays(cel, policies, policies', targets, targets, escalate);
  }

  /** The two engines differ only where an open policy's rule fails under one and does not match under
      the other. */
  predicate DifferOpenly(cel: Engine, cel': Engine, items: seq<Item>) {
    forall x :: x in items ==>
      || Outcome(cel, x) == Outcome(cel', x)
      || (!x.policy.FailsClosed() && Outcome(cel, x).Error? && Outcome(cel', x) == No)
  }

  /** Errors under FailOpen change neither the action nor the code nor the message. */
  lemma {:induction false} FailOpenIrrelevant(cel: Engine, cel': Engine, items: seq<Item>)
    requires DifferOpenly(cel, cel', items)
    ensures Top(cel, items) == Top(cel', items) && CodeOf(cel, items) == CodeOf(cel', items)
    ensures MessageOf(cel, items) == MessageOf(cel', items)
  {
    if items != [] {
      assert Last(items) in items;
      assert forall x :: x in items[..|items| - 1] ==> x in items;
      FailOpenIrrelevant(cel, cel', items[..|items| - 1]);
    }
  }

  /** The cascade scan leaves the action alone or raises it to Deny. */
  lemma CascadeOnlyDenies(cel: Engine, policies: seq<Policy>, targets: seq<Target>, escalate: bool)
    ensures var own, all := Top(cel, Items(policies, OfRequest)), Top(cel, Scanned(policies, targets, escalate));
            all == own || all == Deny
  {
    var base := Items(policies, OfRequest);
    if escalate {
      assert base + [] == base;
    } else {
      forall x | x in CascadeItems(policies, targets) ensures Asks(cel, x) == Allow || Asks(cel, x) == Deny {
        CascadeExactly(policies, targets, x);
      }
      TargetsOnlyDeny(cel, base, CascadeItems(policies, targets));
    }
  }

  lemma {:induction false} TargetsOnlyDeny(cel: Engine, base: seq<Item>, items: seq<Item>)
    requires forall x :: x in items ==> Asks(cel, x) == Allow || Asks(cel, x) == Deny
    ensures Top(cel, base + items) == Top(cel, base) || Top(cel, base + items) == Deny
  {
    if items == [] {
      assert base + items == base;
    } else {
      var rest, last := items[..|items| - 1], Last(items);
      assert base + items == base + rest + [last];
      Snoc(base + rest, last);
      TargetsOnlyDeny(cel, base, rest);
    }
  }

  /** Item `k` is the first in scan order that demands this action. */
  ghost predicate FirstDemanding(cel: Engine, items: seq<Item>, k: int, a: Action) {
    && 0 <= k < |items| && DemandedBy(cel, items[k].policy, items[k].rule, items[k].scope, a)
    && forall j :: 0 <= j < k ==> !DemandedBy(cel, items[j].policy, items[j].rule, items[j].scope, a)
  }

  lemma {:induction false} FirstDecides(cel: Engine, items: seq<Item>, a: Action) returns (k: nat)
    requires Top(cel, items) == a && (a == RequireApproval || a == Deny)
    ensures FirstDemanding(cel, items, k, a) && MessageOf(cel, items) == Message(cel, items[k])
    ensures a == Deny ==> CodeOf(cel, items) == Cause(cel, items[k])
  {
    var rest := items[..|items| - 1];
    forall j | 0 <= j < |items| ensures Asks(cel, items[j]) == a <==> DemandedBy(cel, items[j].policy, items[j].rule, items[j].scope, a) {
      AsksDemanded(cel, items[j], a);
    }
    if Top(cel, rest) == a {
      k := FirstDecides(cel, rest, a);
      assert forall j :: 0 <= j < |rest| ==> items[j] == rest[j];
    } else {
      TopIsHighest(cel, rest);
      assert forall j :: 0 <= j < |rest| ==> rest[j] in rest && items[j] == rest[j];
      k := |items| - 1;
    }
  }

  /** A denial carries the code and message of the first item in scan order that demands it: a failure, a
      rule that matched the request, or one that matched an affected target. No other outcome carries a
      code. */
  lemma CodeNamesFirstDenial(cel: Engine, items: seq<Item>)
    ensures Top(cel, items) != Deny <==> CodeOf(cel, items) == NoCode
    ensures Top(cel, items) == Deny ==>
              exists k :: && FirstDemanding(cel, items, k, Deny)
                          && var said, p, x, scope := cel(items[k].rule.expression, items[k].scope), items[k].policy, items[k].rule, items[k].scope;
                             && CodeOf(cel, items) == (if said.Error? then EvaluationFailure
                                                       else if scope == OfRequest then PolicyViolation else CascadeDenied)
                             && MessageOf(cel, items) ==
                                  (if said.Error? && scope == OfRequest then "CEL evaluation failed (FailClosed): " + said.text
                                   else if said.Error? then "Cascade CEL evaluation failed (FailClosed): " + said.text
                                   else if scope != OfRequest then "Cascade effect denied by policy: " + p.name + " rule: " + x.name
                                   else if x.message.Some? then x.message.value
                                   else "Denied by policy: " + p.name + " rule: " + x.name)
  {
    QuietAllow(cel, items);
    if Top(cel, items) == Deny {
      var k := FirstDecides(cel, items, Deny);
      AsksDemanded(cel, items[k], Deny);
    }
  }

  /** A result that asks for approval carries the message of the first rule in scan order that does. */
  lemma MessageNamesFirst(cel: Engine, items: seq<Item>)
    requires Top(cel, items) == RequireApproval
    ensures exists k :: && FirstDemanding(cel, items, k, RequireApproval)
                        && MessageOf(cel, items) == if items[k].rule.message.Some? then items[k].rule.message.value
                                                    else "Approval required by policy: " + items[k].policy.name + " rule: " + items[k].rule.name
  {
    var k := FirstDecides(cel, items, RequireApproval);
    AsksDemanded(cel, items[k], RequireApproval);
  }

  // ---------- order and reports ----------

  function RuleCount(policies: seq<Policy>): nat {
    if policies == [] then 0 else RuleCount(policies[..|policies| - 1]) + |policies[|policies| - 1].rules|
  }

  lemma {:induction false} ItemsCount(policies: seq<Policy>, scope: Scope)
    ensures |Items(policies, scope)| == RuleCount(policies)
  {
    if policies != [] { ItemsCount(policies[..|policies| - 1], scope); }
  }

  /** Policies are looked at in order and their rules in order within them. */
  lemma {:induction false} ItemsInOrder(policies: seq<Policy>, scope: Scope, i: nat, j: nat)
    requires i < |policies| && j < |policies[i].rules|
    ensures RuleCount(policies[..i]) + j < |Items(policies, scope)|
    ensures Items(policies, scope)[RuleCount(policies[..i]) + j] == Item(policies[i], policies[i].rules[j], scope)
  {
    var rest := policies[..|policies| - 1];
    ItemsCount(rest, scope);
    if i < |rest| {
      ItemsInOrder(rest, scope, i, j);
      assert rest[..i] == policies[..i];
    }
  }

  /** The affected targets follow in order, each with all policies. */
  lemma {:induction false} ScanInOrder(policies: seq<Policy>, targets: seq<Target>, t: nat, i: nat, j: nat)
    requires t < |targets| && i < |policies| && j < |policies[i].rules|
    ensures var k := |CascadeItems(policies, targets[..t])| + RuleCount(policies[..i]) + j;
            && k < |CascadeItems(policies, targets)|
            && CascadeItems(policies, targets)[k] == Item(policies[i], policies[i].rules[j], OfTarget(targets[t]))
  {
    var rest := targets[..|targets| - 1];
    if t < |rest| {
      assert rest[..t] == targets[..t];
      hide RuleCount;
      ScanInOrder(policies, rest, t, i, j);
    } else {
      ItemsInOrder(policies, OfTarget(targets[t]), i, j);
    }
  }

  /** What is reported of one rule under one scope: how it failed, or what it did by matching. */
  predicate Reported(cel: Engine, p: Policy, x: Rule, scope: Scope, verdict: Label) {
    match cel(x.expression, scope)
    case Error(_) =>
      if p.failureMode.None? || p.failureMode.value == "FailClosed" then verdict == (if scope == OfRequest then FailedDeny else CascadeFailed)
      else scope == OfRequest && verdict == FailedOpen
    case Yes =>
      if scope == OfRequest then x.action != Known(Allow) && x.action != Unknown("") && verdict == Acted(x.action)
      else x.action == Known(Deny) && verdict == CascadeDeny
    case No => false
  }

  /** The reports name exactly the rules that failed or matched to some effect. */
  lemma {:induction false} ReportsExactly(cel: Engine, items: seq<Item>, rep: Report)
    ensures rep in ReportsOf(cel, items) <==>
            exists x :: x in items && rep == Report(x.policy.name, x.rule.name, rep.verdict)
                        && Reported(cel, x.policy, x.rule, x.scope, rep.verdict)
  {
    if items != [] {
      var rest, last := items[..|items| - 1], Last(items);
      assert items == rest + [last];
      ReportsExactly(cel, rest, rep);
      OneReport(cel, last, rep);
    }
  }

  lemma OneReport(cel: Engine, x: Item, rep: Report)
    ensures |Reports(cel, x)| <= 1
    ensures rep in Reports(cel, x) <==>
            rep == Report(x.policy.name, x.rule.name, rep.verdict) && Reported(cel, x.policy, x.rule, x.scope, rep.verdict)
  {
    var made := Reports(cel, x);
    assert rep in made <==> made != [] && made[0] == rep;
  }
}

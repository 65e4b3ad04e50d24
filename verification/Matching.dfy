/** Choosing the most specific GovernedResource for a target, through a shared cache of compiled
    patterns that is emptied when it grows too large. */
module Matching {
  import opened Api

  datatype Resource = Resource(name: string, pattern: string, permitted: seq<string>)

  /** The glob library: compiling may fail; a compiled pattern is known by a handle. */
  datatype Globs = Globs(compile: string -> Option<nat>, matches: (nat, string) -> bool)

  const LIMIT: nat := 1000

  // ---------- the order ----------

  /** Byte-wise string order. */
  predicate Less(a: string, b: string) {
    b != [] && (a == [] || a[0] < b[0] || (a[0] == b[0] && Less(a[1..], b[1..])))
  }

  lemma {:induction false} LessTotal(a: string, b: string)
    ensures a == b || Less(a, b) || Less(b, a)
    ensures !(Less(a, b) && Less(b, a)) && !Less(a, a)
  {
    if a != [] && b != [] && a[0] == b[0] {
      LessTotal(a[1..], b[1..]);
      assert a == [a[0]] + a[1..] && b == [b[0]] + b[1..];
    }
    if a != [] { NotLess(a); }
  }

  lemma {:induction false} NotLess(a: string)
    ensures !Less(a, a)
  {
    if a != [] { NotLess(a[1..]); }
  }

  lemma {:induction false} LessTransitive(a: string, b: string, c: string)
    requires Less(a, b) && Less(b, c)
    ensures Less(a, c)
  {
    if a != [] && a[0] == b[0] && b[0] == c[0] { LessTransitive(a[1..], b[1..], c[1..]); }
  }

  /** More specific: a longer pattern, then the name that comes first. */
  predicate Beats(a: Resource, b: Resource) {
    |a.pattern| > |b.pattern| || (|a.pattern| == |b.pattern| && Less(a.name, b.name))
  }

  lemma BeatsTransitive(a: Resource, b: Resource, c: Resource)
    requires Beats(a, b) && Beats(b, c)
    ensures Beats(a, c)
  {
    if |a.pattern| == |b.pattern| == |c.pattern| { LessTransitive(a.name, b.name, c.name); }
  }

  // ---------- what a match is ----------

  predicate Governs(g: Globs, r: Resource, uri: string, action: string) {
    && (action == "" || r.permitted == [] || action in r.permitted)
    && g.compile(r.pattern).Some? && g.matches(g.compile(r.pattern).value, uri)
  }

  /** Nothing if nothing governs; otherwise one that governs and that no other beats. */
  predicate MostSpecific(g: Globs, items: seq<Resource>, uri: string, action: string, best: Option<Resource>) {
    match best
    case None => forall r :: r in items ==> !Governs(g, r, uri, action)
    case Some(b) => b in items && Governs(g, b, uri, action) && forall r :: r in items && Governs(g, r, uri, action) ==> !Beats(r, b)
  }

  /** The resource's pattern compiles and matches, and its permitted actions, if it lists any, have the action asked for, if any. */
  predicate Fits(g: Globs, r: Resource, uri: string, action: string) {
    && match g.compile(r.pattern) { case None => false case Some(handle) => g.matches(handle, uri) }
    && (action != "" && |r.permitted| > 0 ==> exists i :: 0 <= i < |r.permitted| && r.permitted[i] == action)
  }

  /** `a` comes before `b`: it is a proper beginning of it, or has the smaller character where they first differ. */
  ghost predicate Before(a: string, b: string) {
    exists i :: 0 <= i <= |a| && i <= |b| && a[..i] == b[..i] && if i == |a| then i < |b| else i < |b| && a[i] < b[i]
  }

  /** The answer in terms of the resources' own fields: none fits, or the answer fits and every other that
      fits has a shorter pattern, or one as long and a name that does not come before. */
  lemma MostSpecificMeans(g: Globs, items: seq<Resource>, uri: string, action: string, best: Option<Resource>)
    requires MostSpecific(g, items, uri, action, best)
    ensures best.None? <==> forall r :: r in items ==> !Fits(g, r, uri, action)
    ensures best.Some? ==>
              && best.value in items && Fits(g, best.value, uri, action)
              && forall r :: r in items && Fits(g, r, uri, action) ==>
                   || |r.pattern| < |best.value.pattern|
                   || (|r.pattern| == |best.value.pattern| && !Before(r.name, best.value.name))
  {
    forall r | r in items
      ensures Governs(g, r, uri, action) <==> Fits(g, r, uri, action)
      ensures best.Some? ==> (Less(r.name, best.value.name) <==> Before(r.name, best.value.name))
    {
      FitsGoverns(g, r, uri, action);
      if best.Some? { LessExactly(r.name, best.value.name); }
    }
    hide Governs, Fits, Less, Before;
  }

  lemma FitsGoverns(g: Globs, r: Resource, uri: string, action: string)
    ensures Governs(g, r, uri, action) <==> Fits(g, r, uri, action)
  {
  }

  lemma {:induction false} LessExactly(a: string, b: string)
    ensures Less(a, b) <==> Before(a, b)
  {
    if a == [] {
      if b != [] { assert a[..0] == b[..0]; }
    } else if b != [] && a[0] == b[0] {
      LessExactly(a[1..], b[1..]);
      assert a == [a[0]] + a[1..] && b == [b[0]] + b[1..];
      if Before(a[1..], b[1..]) { Longer(a, b); }
      if Before(a, b) { Shorter(a, b); }
    } else if b != [] {
      assert a[..0] == b[..0];
      forall i | 0 < i <= |a| && i <= |b| ensures a[..i] != b[..i] { assert a[..i][0] != b[..i][0]; }
    }
  }

  lemma Longer(a: string, b: string)
    requires a != [] && b != [] && a[0] == b[0] && Before(a[1..], b[1..])
    ensures Before(a, b)
  {
    var a', b' := a[1..], b[1..];
    var i :| 0 <= i <= |a'| && i <= |b'| && a'[..i] == b'[..i] && if i == |a'| then i < |b'| else i < |b'| && a'[i] < b'[i];
    assert a[..i + 1] == [a[0]] + a'[..i] && b[..i + 1] == [b[0]] + b'[..i];
  }

  lemma Shorter(a: string, b: string)
    requires a != [] && b != [] && a[0] == b[0] && Before(a, b)
    ensures Before(a[1..], b[1..])
  {
    var i :| 0 <= i <= |a| && i <= |b| && a[..i] == b[..i] && if i == |a| then i < |b| else i < |b| && a[i] < b[i];
    assert a[1..][..i - 1] == a[..i][1..] && b[1..][..i - 1] == b[..i][1..];
  }

  lemma Consider(g: Globs, items: seq<Resource>, uri: string, action: string, best: Option<Resource>, r: Resource)
    requires MostSpecific(g, items, uri, action, best)
    ensures MostSpecific(g, items + [r], uri, action,
              if Governs(g, r, uri, action) && (best.None? || Beats(r, best.value)) then Some(r) else best)
  {
    LessTotal(r.name, r.name);
    if best.Some? && Governs(g, r, uri, action) && Beats(r, best.value) {
      forall x | x in items && Governs(g, x, uri, action) ensures !Beats(x, r) {
        if Beats(x, r) { BeatsTransitive(x, r, best.value); }
      }
    }
    hide Governs, Beats;
  }

  /** The process-wide cache. */
  class GlobCache {
    const g: Globs
    var cache: map<string, nat>

    /** What is cached is what compiling would give, and there are at most 1001 entries. */
    predicate Valid()
      reads this
    {
      && (forall p :: p in cache ==> g.compile(p) == Some(cache[p]))
      && |cache| <= LIMIT + 1
    }

    constructor (g: Globs)
      ensures Valid() && this.g == g
    {
      this.g, cache := g, map[];
    }

    /** The locked section that adds a compiled pattern. */
    method Add(pattern: string, handle: nat)
      requires Valid() && g.compile(pattern) == Some(handle)
      modifies this
      ensures Valid() && pattern in cache
      ensures |old(cache)| <= LIMIT ==> forall p :: p in old(cache) ==> p in cache
    {
      if |cache| > LIMIT { cache := map[]; }
      Grown(cache, pattern, handle);
      cache := cache[pattern := handle];
    }

    /** Other requests may fill or empty the cache between the locked sections. */
    method Meanwhile()
      requires Valid()
      modifies this
      ensures Valid()
    {
      var patterns: seq<string> := *;
      for i := 0 to |patterns|
        invariant Valid()
      {
        var c := g.compile(patterns[i]);
        if c.Some? { Add(patterns[i], c.value); }
      }
    }

    /** matchGovernedResource. */
    method Match(items: seq<Resource>, uri: string, action: string) returns (best: Option<Resource>)
      requires Valid()
      modifies this
      ensures Valid() && MostSpecific(g, items, uri, action, best)
      ensures best.None? <==> forall r :: r in items ==> !Fits(g, r, uri, action)
      ensures best.Some? ==>
                && best.value in items && Fits(g, best.value, uri, action)
                && forall r :: r in items && Fits(g, r, uri, action) ==>
                     || |r.pattern| < |best.value.pattern|
                     || (|r.pattern| == |best.value.pattern| && !Before(r.name, best.value.name))
    {
      hide Fits, Before;
      best := None;
      for i := 0 to |items|
        invariant Valid() && MostSpecific(g, items[..i], uri, action, best)
      {
        var r := items[i];
        assert items[..i + 1] == items[..i] + [r];
        Consider(g, items[..i], uri, action, best, r);
        if action != "" && |r.permitted| > 0 && action !in r.permitted { continue; }
        var handle;
        if r.pattern in cache {
          handle := cache[r.pattern];
        } else {
          var c := g.compile(r.pattern);
          if c.None? { continue; }
          handle := c.value;
          Meanwhile();
          Add(r.pattern, handle);
        }
        if !g.matches(handle, uri) { continue; }
        if best.None? || |r.pattern| > |best.value.pattern|
           || (|r.pattern| == |best.value.pattern| && Less(r.name, best.value.name))
        {
          best := Some(r);
        }
      }
      assert items[..|items|] == items;
      MostSpecificMeans(g, items, uri, action, best);
    }
  }

  lemma Grown(m: map<string, nat>, k: string, v: nat)
    ensures |m[k := v]| <= |m| + 1
  {
    assert m[k := v].Keys == m.Keys + {k};
    assert |m[k := v].Keys| == |m[k := v]| && |m.Keys| == |m|;
  }

  predicate DistinctNames(items: seq<Resource>) {
    forall i, j :: 0 <= i < j < |items| ==> items[i].name != items[j].name
  }

  /** With distinct names there is one answer, whatever the order of the items and whatever was cached. */
  lemma OneAnswer(g: Globs, items: seq<Resource>, items': seq<Resource>, uri: string, action: string, a: Option<Resource>, b: Option<Resource>)
    requires DistinctNames(items) && (forall r :: r in items <==> r in items')
    requires MostSpecific(g, items, uri, action, a) && MostSpecific(g, items', uri, action, b)
    ensures a == b
  {
    if a.Some? && b.Some? {
      assert a.value in items && b.value in items;
      LessTotal(a.value.name, b.value.name);
      var i :| 0 <= i < |items| && items[i] == a.value;
      var j :| 0 <= j < |items| && items[j] == b.value;
    }
    hide Governs;
  }
}

/** The Kubernetes OIDC provider: one token cache per inbound identity, found by digest in a shared map.
    The methods are one caller's code; other callers may be at work before and after every operation
    on the map, on a cache, and around the exchange itself. */
module Provider {
  import opened Api
  import TokenCache

  /** One token cache; its fetch closure has captured `raw`. */
  datatype Slot = Slot(raw: string, token: string, expiresAt: int)

  datatype Grant = Grant(token: string, expiry: int)

  /** What a call meets outside: what the exchange answers it, whether another caller's fetch is in flight
      when it comes to fetch, and whether that one fails. */
  datatype Outside = Outside(answer: Option<Grant>, joins: bool, fails: bool)

  /** A cache as the cleanup saw it when it tested it. */
  datatype Look = Look(slot: Slot, at: int)

  /** A token was stored in a cache. */
  datatype Saved = Saved(id: nat, grant: Grant)

  /** The last and the first token stored in cache `id`, according to a log. */
  function LastFor(log: seq<Saved>, id: nat): Option<Grant> {
    if log == [] then None
    else if log[|log| - 1].id == id then Some(log[|log| - 1].grant)
    else LastFor(log[..|log| - 1], id)
  }

  function FirstFor(log: seq<Saved>, id: nat): Option<Grant> {
    if log == [] then None else if log[0].id == id then Some(log[0].grant) else FirstFor(log[1..], id)
  }

  /** A deletion by the cleanup: the cache it had read and tested; whether others took that one out of the
      map since it was read; what others stored between reading and testing, and since; and what the
      deletion took out, as it was, and when. */
  datatype Removal = Removal(
    key: string, tested: nat, look: Look, overtaken: bool, earlier: seq<Saved>, since: seq<Saved>,
    gone: Option<nat>, slot: Slot, at: int)

  predicate UsableGrant(g: Option<Grant>, now: int) {
    g.Some? && TokenCache.Fresh(TokenCache.Legacy, TokenCache.Entry(g.value.token, g.value.expiry), now)
  }

  /** The deletion takes a cache out whose token is still usable. */
  predicate LosesFresh(r: Removal) {
    r.gone.Some? && Usable(r.slot, r.at)
  }

  /** What was tested had expired. It is what was taken out exactly if nobody else did so before. A usable
      token is lost exactly if the last one that others stored, since the key was read, in the cache bound
      under it is still usable; for the tested cache only what came after the test matters, and without
      that it goes as expired as it was found. */
  predicate Proper(r: Removal) {
    && r.look.slot.token != "" && r.look.slot.expiresAt < r.look.at <= r.at
    && (r.gone == Some(r.tested) <==> !r.overtaken)
    && (LosesFresh(r) <==> r.gone.Some? && UsableGrant(LastFor(r.earlier + r.since, r.gone.value), r.at))
    && (!r.overtaken ==> (LosesFresh(r) <==> UsableGrant(LastFor(r.since, r.tested), r.at)))
    && (!r.overtaken && LastFor(r.since, r.tested).None? ==> IsExpired(r.slot, r.at))
  }

  predicate AllProper(rs: seq<Removal>) {
    forall i :: 0 <= i < |rs| ==> Proper(rs[i])
  }

  predicate IsExpired(s: Slot, now: int) {
    s.token != "" && now > s.expiresAt
  }

  predicate Usable(s: Slot, now: int) {
    TokenCache.Fresh(TokenCache.Legacy, TokenCache.Entry(s.token, s.expiresAt), now)
  }

  /** Bound under `key` before and after to the same cache. */
  predicate Stays(before: map<string, nat>, after: map<string, nat>, key: string) {
    key in before && key in after && after[key] == before[key]
  }

  /** Cache objects below `next` are old: a binding is an old one or to a new object. */
  ghost predicate OnlyNew(before: map<string, nat>, after: map<string, nat>, next: nat) {
    forall k :: k in after ==> Stays(before, after, k) || after[k] >= next
  }

  /** Exactly the bindings of the keys in `evicted` were taken out, whatever came after. */
  ghost predicate Evicts(before: map<string, nat>, after: map<string, nat>, evicted: set<string>) {
    forall k :: k in before ==> (k in evicted <==> !Stays(before, after, k))
  }

  lemma EvictsOn(a: map<string, nat>, b: map<string, nat>, c: map<string, nat>, n: nat, m: nat, e: set<string>, f: set<string>)
    requires Evicts(a, b, e) && Evicts(b, c, f) && OnlyNew(a, b, n) && OnlyNew(b, c, m) && n <= m
    requires forall k :: k in a ==> a[k] < n
    ensures Evicts(a, c, e + f) && OnlyNew(a, c, n)
  {
    forall k | k in a ensures k in e + f <==> !Stays(a, c, k) {
      if k in c { assert Stays(b, c, k) || c[k] >= m; }
      if Stays(a, b, k) { assert k in f <==> !Stays(b, c, k); }
    }
  }

  /** The caches after a time in which others stored what `log` says: each holds what was last stored in
      it, or what it held before; a new one is empty. */
  ghost predicate Filled(before: map<nat, Slot>, after: map<nat, Slot>, log: seq<Saved>) {
    && before.Keys <= after.Keys && (forall i :: 0 <= i < |log| ==> log[i].id in after)
    && forall id :: id in after ==> HeldAfter(before, after, log, id)
  }

  predicate HeldAfter(before: map<nat, Slot>, after: map<nat, Slot>, log: seq<Saved>, id: nat)
    requires id in after
  {
    var last := LastFor(log, id);
    && (id in before ==> after[id].raw == before[id].raw)
    && after[id] == if last.Some? then Slot(after[id].raw, last.value.token, last.value.expiry)
                    else if id in before then before[id]
                    else Slot(after[id].raw, "", 0)
  }

  /** Everything in the log was exchanged for the identity of the cache it went into. */
  ghost predicate Issued(log: seq<Saved>, slots: map<nat, Slot>, exchanged: set<(string, string)>) {
    forall i :: 0 <= i < |log| ==> log[i].id in slots && (slots[log[i].id].raw, log[i].grant.token) in exchanged
  }

  lemma {:induction false} LastOfBoth(a: seq<Saved>, b: seq<Saved>, id: nat)
    ensures LastFor(a + b, id) == if LastFor(b, id).Some? then LastFor(b, id) else LastFor(a, id)
  {
    if b == [] {
      assert a + b == a;
    } else {
      var last := |b| - 1;
      assert (a + b)[..|a + b| - 1] == a + b[..last];
      LastOfBoth(a, b[..last], id);
    }
  }

  lemma {:induction false} LastIsIn(log: seq<Saved>, id: nat)
    ensures LastFor(log, id).Some? ==> Saved(id, LastFor(log, id).value) in log
  {
    if log != [] && log[|log| - 1].id != id { LastIsIn(log[..|log| - 1], id); }
  }

  lemma {:induction false} FirstIsIn(log: seq<Saved>, id: nat)
    ensures FirstFor(log, id).Some? ==> Saved(id, FirstFor(log, id).value) in log
  {
    if log != [] && log[0].id != id { FirstIsIn(log[1..], id); }
  }

  lemma FilledOn(a: map<nat, Slot>, b: map<nat, Slot>, c: map<nat, Slot>, l: seq<Saved>, m: seq<Saved>)
    requires Filled(a, b, l) && Filled(b, c, m)
    ensures Filled(a, c, l + m)
  {
    forall id | id in c ensures HeldAfter(a, c, l + m, id) {
      LastOfBoth(l, m, id);
      LastIsIn(l, id);
      assert HeldAfter(b, c, m, id);
      if id in b { assert HeldAfter(a, b, l, id); }
    }
  }

  lemma IssuedOn(l: seq<Saved>, m: seq<Saved>, b: map<nat, Slot>, c: map<nat, Slot>, e: set<(string, string)>, f: set<(string, string)>)
    requires Issued(l, b, e) && Issued(m, c, f) && e <= f && forall id :: id in b ==> id in c && c[id].raw == b[id].raw
    ensures Issued(l + m, c, f)
  {
  }

  lemma NothingFilled(slots: map<nat, Slot>, exchanged: set<(string, string)>)
    ensures Filled(slots, slots, []) && Issued([], slots, exchanged)
  {
  }

  lemma OneFilled(before: map<nat, Slot>, id: nat, g: Grant)
    requires id in before
    ensures Filled(before, before[id := Slot(before[id].raw, g.token, g.expiry)], [Saved(id, g)])
  {
    assert forall i :: LastFor([Saved(id, g)], i) == if i == id then Some(g) else None;
  }

  lemma OneMade(before: map<nat, Slot>, id: nat, raw: string)
    requires id !in before
    ensures Filled(before, before[id := Slot(raw, "", 0)], [])
  {
  }

  /** The cache held this token at first, or it was stored there. */
  ghost predicate InCache(token: string, first: string, log: seq<Saved>, id: nat) {
    token == first || exists g :: Saved(id, g) in log && g.token == token
  }

  lemma StoredLast(log: seq<Saved>, id: nat, g: Grant, first: string)
    ensures InCache(g.token, first, log + [Saved(id, g)], id)
  {
    assert (log + [Saved(id, g)])[|log|] == Saved(id, g);
  }

  lemma InCacheOn(a: map<nat, Slot>, b: map<nat, Slot>, l: seq<Saved>, m: seq<Saved>, id: nat, token: string)
    requires Filled(a, b, l) && id in a && id in b && InCache(token, b[id].token, m, id)
    ensures InCache(token, a[id].token, l + m, id)
  {
    if token == b[id].token {
      assert HeldAfter(a, b, l, id);
      LastIsIn(l, id);
      if LastFor(l, id).Some? { assert Saved(id, LastFor(l, id).value) in l + m; }
    } else {
      var g :| Saved(id, g) in m && g.token == token;
      assert Saved(id, g) in l + m;
    }
  }

  /** What the deletion took out, seen from the reading of the key to the deletion. */
  lemma RemovalProper(r: Removal, n: nat, start: map<nat, Slot>, mid: map<nat, Slot>, end: map<nat, Slot>)
    requires Filled(start, mid, r.earlier) && Filled(mid, end, r.since) && r.tested in start && (forall id :: id in start ==> id < n)
    requires r.look.slot == mid[r.tested] && IsExpired(r.look.slot, r.look.at) && r.look.at <= r.at
    requires r.gone == Some(r.tested) <==> !r.overtaken
    requires r.gone.Some? ==> r.gone.value in end && r.slot == end[r.gone.value] && (r.gone.value == r.tested || r.gone.value >= n)
    ensures Proper(r)
  {
    FilledOn(start, mid, end, r.earlier, r.since);
    if r.gone.Some? {
      var id := r.gone.value;
      assert HeldAfter(start, end, r.earlier + r.since, id);
      if id == r.tested {
        assert HeldAfter(mid, end, r.since, id) && HeldAfter(start, mid, r.earlier, id);
        LastOfBoth(r.earlier, r.since, id);
      }
    }
  }

  lemma PublishedOne(before: map<string, nat>, after: map<string, nat>, key: string, id: nat)
    requires after == if key in before then before else before[key := id]
    ensures OnlyNew(before, after, id) && Evicts(before, after, {})
  {
  }

  /** Cache `c` is in the map under no key but these. */
  ghost predicate BoundOnly(caches: map<string, nat>, c: nat, keys: set<string>) {
    forall k :: k in caches && caches[k] == c ==> k in keys
  }

  lemma OfferBinds(after: map<string, nat>, key: string, c: nat, actual: nat)
    requires key in after && after[key] == actual && BoundOnly(after, c, {key})
    ensures BoundOnly(after, c, if actual == c then {key} else {})
  {
  }

  lemma StaysBoundOnly(before: map<string, nat>, after: map<string, nat>, next: nat, c: nat, keys: set<string>)
    requires BoundOnly(before, c, keys) && OnlyNew(before, after, next) && c < next
    ensures BoundOnly(after, c, keys)
  {
  }

  lemma Unbinds(before: map<string, nat>, key: string, c: nat)
    requires BoundOnly(before, c, {key})
    ensures BoundOnly(if key in before && before[key] == c then before - {key} else before, c, {})
  {
  }

  lemma DeletesTested(before: map<string, nat>, after: map<string, nat>, key: string, evicted: set<string>)
    requires key in before && Evicts(before, after, evicted)
    ensures key !in evicted <==> key in after && after[key] == before[key]
  {
  }

  lemma NewOrTested(before: map<string, nat>, after: map<string, nat>, next: nat, key: string)
    requires OnlyNew(before, after, next) && key in before
    ensures key in after ==> after[key] == before[key] || after[key] >= next
  {
  }

  lemma DeletedOnly(before: map<string, nat>, after: map<string, nat>, next: nat, key: string)
    requires OnlyNew(before, after, next)
    ensures OnlyNew(before, after - {key}, next)
  {
    forall k | k in after - {key} ensures Stays(before, after - {key}, k) || (after - {key})[k] >= next {
      assert Stays(before, after, k) || after[k] >= next;
    }
  }

  lemma SameOnlyNew(caches: map<string, nat>, next: nat)
    ensures OnlyNew(caches, caches, next)
  {
  }

  /** One more cache was removed, after this test of it, and properly. */
  predicate OneMoreProper(before: seq<Removal>, after: seq<Removal>, key: string, look: Look) {
    && |after| == |before| + 1 && after[..|before|] == before
    && Proper(after[|before|]) && after[|before|].key == key && after[|before|].look == look
  }

  lemma MoreProper(before: seq<Removal>, after: seq<Removal>, key: string, look: Option<Look>)
    requires AllProper(before) && (after == before || (look.Some? && OneMoreProper(before, after, key, look.value)))
    ensures AllProper(after)
  {
    hide Proper;
    forall i | 0 <= i < |after| ensures Proper(after[i]) {
      if i < |before| { assert after[..|before|][i] == after[i]; }
    }
  }

  lemma OnlyNewOn(a: map<string, nat>, b: map<string, nat>, c: map<string, nat>, n: nat, m: nat)
    requires OnlyNew(a, b, n) && OnlyNew(b, c, m) && n <= m
    ensures OnlyNew(a, c, n)
  {
    forall k | k in c ensures Stays(a, c, k) || c[k] >= n {
      if Stays(b, c, k) { assert Stays(a, b, k) || b[k] >= n; }
    }
  }

  /** Every binding that is still there, but for those under `todo`, was tested and had not expired. */
  ghost predicate Cleared(before: map<string, nat>, after: map<string, nat>, todo: set<string>, cleared: map<string, Look>, t: int, now: int) {
    forall k :: Stays(before, after, k) && k !in todo ==>
      k in cleared && t <= cleared[k].at <= now && (cleared[k].slot.token == "" || cleared[k].at <= cleared[k].slot.expiresAt)
  }

  lemma NothingCleared(caches: map<string, nat>, todo: set<string>, t: int)
    requires caches.Keys <= todo
    ensures Cleared(caches, caches, todo, map[], t, t)
  {
  }

  /** A binding that is there before and after was there all along, so the tests made meanwhile count. */
  lemma ClearedOn(a: map<string, nat>, b: map<string, nat>, c: map<string, nat>, n: nat, m: nat, todo: set<string>, key: string,
                  cleared: map<string, Look>, look: Option<Look>, t0: int, t: int, now: int)
    requires OnlyNew(a, b, n) && OnlyNew(b, c, m) && n <= m && (forall k :: k in a ==> a[k] < n) && t0 <= t <= now
    requires Cleared(a, b, todo, cleared, t0, t)
    requires Stays(b, c, key) ==> look.Some? && !IsExpired(look.value.slot, look.value.at) && t <= look.value.at <= now
    ensures Cleared(a, c, todo - {key}, if look.Some? then cleared[key := look.value] else cleared, t0, now)
  {
    var cleared' := if look.Some? then cleared[key := look.value] else cleared;
    forall k | Stays(a, c, k) && k !in todo - {key}
      ensures k in cleared' && t0 <= cleared'[k].at <= now
      ensures cleared'[k].slot.token == "" || cleared'[k].at <= cleared'[k].slot.expiresAt
    {
      KeptAllAlong(a, b, c, n, m, k);
    }
  }

  lemma KeptAllAlong(a: map<string, nat>, b: map<string, nat>, c: map<string, nat>, n: nat, m: nat, k: string)
    requires OnlyNew(a, b, n) && OnlyNew(b, c, m) && n <= m && Stays(a, c, k) && a[k] < n
    ensures Stays(a, b, k) && Stays(b, c, k)
  {
  }

  lemma IssuedFor(digest: string -> string, exchanged: set<(string, string)>, r: string, raw: string, result: Option<string>)
    requires digest(r) == digest(raw) && (result.Some? ==> (r, result.value) in exchanged)
    ensures result.Some? ==> exists r' :: digest(r') == digest(raw) && (r', result.value) in exchanged
  {
  }

  class OidcProvider {
    const exchangeURL: string
    const digest: string -> string
    var now: int
    var caches: map<string, nat>   // the shared map: digest to cache object
    var slots: map<nat, Slot>      // the cache objects ever created
    var next: nat
    /** Which identity each token was exchanged for. */
    var exchanged: set<(string, string)>
    /** The cache objects that were ever in the map: all that other callers can know. */
    var published: set<nat>
    /** How often this caller has stored a token. */
    ghost var stores: nat
    /** What this caller's cleanup deleted. */
    ghost var removals: seq<Removal>

    ghost predicate Valid()
      reads this
    {
      && (forall id :: id in slots ==> id < next)
      && published <= slots.Keys
      && (forall id :: id in slots && slots[id].token != "" ==> (slots[id].raw, slots[id].token) in exchanged)
      && (forall k :: k in caches ==> caches[k] in published && digest(slots[caches[k]].raw) == k)
    }

    /** Cache objects keep the identity they were made for, and nothing that was issued is forgotten. */
    twostate predicate Later()
      reads this
    {
      && old(exchanged) <= exchanged && old(now) <= now && old(next) <= next && old(published) <= published
      && forall id :: id in old(slots) ==> id in slots && slots[id].raw == old(slots[id].raw)
    }

    /** No other identity that was ever presented has the digest of this one. */
    ghost predicate Distinct(raw: string)
      reads this
    {
      forall id :: id in slots && digest(slots[id].raw) == digest(raw) ==> slots[id].raw == raw
    }

    constructor (exchangeURL: string, digest: string -> string, now: int)
      ensures Valid() && this.exchangeURL == exchangeURL && this.digest == digest && this.now == now
      ensures caches == map[] && slots == map[] && next == 0 && published == {} && stores == 0 && removals == []
    {
      this.exchangeURL, this.digest, this.now := exchangeURL, digest, now;
      caches, slots, next, exchanged := map[], map[], 0, {};
      published, stores, removals := {}, 0, [];
    }

    // ---------- atomic operations ----------

    /** A new cache object for this identity. */
    method NewSlot(raw: string) returns (id: nat)
      requires Valid()
      modifies this`slots, this`next
      ensures Valid() && Later() && id == old(next) && next == id + 1 && id !in published
      ensures slots == old(slots)[id := Slot(raw, "", 0)]
    {
      id := next;
      slots, next := slots[id := Slot(raw, "", 0)], next + 1;
    }

    /** The cache object under this key, `c` itself if there was none. */
    method LoadOrStore(key: string, c: nat) returns (actual: nat)
      requires Valid() && c in slots && digest(slots[c].raw) == key && c !in published
      modifies this`caches, this`published
      ensures Valid() && Later() && actual in published && digest(slots[actual].raw) == key
      ensures key in caches && caches[key] == actual && BoundOnly(caches, c, {key})
      ensures if key in old(caches) then actual == old(caches)[key] && caches == old(caches) && published == old(published)
              else actual == c && caches == old(caches)[key := c] && published == old(published) + {c}
    {
      if key in caches { return caches[key]; }
      actual := c;
      caches, published := caches[key := c], published + {c};
    }

    method CompareAndDelete(key: string, c: nat)
      requires Valid()
      modifies this`caches
      ensures Valid() && caches == if key in old(caches) && old(caches)[key] == c then old(caches) - {key} else old(caches)
    {
      if key in caches && caches[key] == c { caches := caches - {key}; }
    }

    method Delete(key: string)
      requires Valid()
      modifies this`caches
      ensures Valid() && caches == old(caches) - {key}
    {
      caches := caches - {key};
    }

    method Wait(d: nat)
      requires Valid()
      modifies this`now
      ensures Valid() && now == old(now) + d
    {
      now := now + d;
    }

    /** A token exchanged for this identity arrives. */
    method Receive(raw: string, g: Grant)
      requires Valid()
      modifies this`exchanged
      ensures Valid() && exchanged == old(exchanged) + {(raw, g.token)}
    {
      exchanged := exchanged + {(raw, g.token)};
    }

    /** The cache takes a token that was exchanged for its identity. */
    method Save(id: nat, g: Grant)
      requires Valid() && id in slots && (slots[id].raw, g.token) in exchanged
      modifies this`slots
      ensures Valid() && Later() && slots == old(slots)[id := Slot(old(slots[id].raw), g.token, g.expiry)]
    {
      slots := slots[id := slots[id].(token := g.token, expiresAt := g.expiry)];
    }

    // ---------- other callers ----------

    /** Another caller publishes a cache of its own, unless its identity has one. */
    method Publish(raw: string)
      requires Valid()
      modifies this`caches, this`slots, this`next, this`published
      ensures Valid() && Later()
      ensures OnlyNew(old(caches), caches, old(next)) && Evicts(old(caches), caches, {})
      ensures Filled(old(slots), slots, [])
      ensures forall id :: id in published ==> id in old(published) || id >= old(next)
    {
      var id := NewSlot(raw);
      OneMade(old(slots), id, raw);
      var _ := LoadOrStore(digest(raw), id);
      PublishedOne(old(caches), caches, digest(raw), id);
    }

    /** Another caller stores what it exchanged, in a cache that was in the map when it looked. */
    method Refresh(id: nat, g: Grant)
      requires Valid() && id in published
      modifies this`slots, this`exchanged
      ensures Valid() && Later()
      ensures Filled(old(slots), slots, [Saved(id, g)]) && Issued([Saved(id, g)], slots, exchanged)
    {
      Receive(slots[id].raw, g);
      OneFilled(slots, id, g);
      Save(id, g);
    }

    /** One step of some other caller: it publishes a cache, stores a token, takes a binding out of the
        map, or time passes. */
    method OtherStep() returns (ghost evicted: set<string>, saved: seq<Saved>)
      requires Valid()
      modifies this`caches, this`slots, this`next, this`exchanged, this`published, this`now
      ensures Valid() && Later()
      ensures OnlyNew(old(caches), caches, old(next)) && Evicts(old(caches), caches, evicted)
      ensures Filled(old(slots), slots, saved) && Issued(saved, slots, exchanged)
      ensures forall id :: id in published ==> id in old(published) || id >= old(next)
    {
      evicted, saved := {}, [];
      var what: int, text: string, id: nat, g: Grant, d: nat := *, *, *, *, *;
      NothingFilled(slots, exchanged);
      hide Filled, Issued;
      if what == 0 {
        Publish(text);
        NothingFilled(slots, exchanged);
      } else if what == 1 && id in published && g.token != "" {
        Refresh(id, g);
        saved := [Saved(id, g)];
      } else if what == 2 {
        evicted := {text};
        Delete(text);
      } else {
        Wait(d);
      }
    }

    /** Other callers at work. `evicted` are the keys whose bindings they took out, `saved` what they stored. */
    method Meanwhile() returns (ghost evicted: set<string>, saved: seq<Saved>)
      requires Valid()
      modifies this`caches, this`slots, this`next, this`exchanged, this`published, this`now
      ensures Valid() && Later()
      ensures OnlyNew(old(caches), caches, old(next)) && Evicts(old(caches), caches, evicted)
      ensures Filled(old(slots), slots, saved) && Issued(saved, slots, exchanged)
      ensures forall id :: id in published ==> id in old(published) || id >= old(next)
    {
      evicted, saved := {}, [];
      var rounds: int := *;
      NothingFilled(slots, exchanged);
      hide Filled, Issued;
      for i := 0 to if rounds < 0 then 0 else rounds
        invariant Valid() && Later()
        invariant OnlyNew(old(caches), caches, old(next)) && Evicts(old(caches), caches, evicted)
        invariant Filled(old(slots), slots, saved) && Issued(saved, slots, exchanged)
        invariant forall id :: id in published ==> id in old(published) || id >= old(next)
      {
        ghost var before, n, held, known := caches, next, slots, exchanged;
        ghost var more;
        var next;
        more, next := OtherStep();
        EvictsOn(old(caches), before, caches, old(this.next), n, evicted, more);
        FilledOn(old(slots), held, slots, saved, next);
        IssuedOn(saved, next, held, slots, known, exchanged);
        evicted, saved := evicted + more, saved + next;
      }
    }

    // ---------- one caller ----------

    /** The token exchange: it takes time and may fail, and a grant is for the identity that was presented;
        an empty token counts as a failure. */
    method Exchange(raw: string, answer: Option<Grant>) returns (g: Option<Grant>, ghost saved: seq<Saved>)
      requires Valid()
      modifies this`caches, this`slots, this`next, this`exchanged, this`published, this`now
      ensures Valid() && Later() && (g.Some? ==> (raw, g.value.token) in exchanged)
      ensures g == if answer.Some? && answer.value.token != "" then answer else None
      ensures OnlyNew(old(caches), caches, old(next)) && Filled(old(slots), slots, saved)
    {
      hide Filled, Issued;
      ghost var evicted;
      var seen;
      evicted, seen := Meanwhile();
      saved := seen;
      g := answer;
      if g.Some? && g.value.token == "" { g := None; }
      if g.Some? { Receive(raw, g.value); }
    }

    /** Get on one cache object: a usable token at once; otherwise what the fetch in flight brings, this
        caller's own or one it joined. `saved` is what was stored meanwhile, by this caller too: the token
        returned was in this cache during the call. A caller that leads the fetch fails only if its exchange does. */
    method Get(id: nat, out: Outside) returns (result: Option<string>, ghost saved: seq<Saved>)
      requires Valid() && id in slots
      modifies this`caches, this`slots, this`next, this`exchanged, this`published, this`now, this`stores
      ensures Valid() && Later()
      ensures old(Usable(slots[id], now)) ==> result == Some(old(slots[id].token)) && stores == old(stores)
      ensures result.None? && !out.joins ==> out.answer.None? || out.answer.value.token == ""
      ensures result.Some? ==> (slots[id].raw, result.value) in exchanged && InCache(result.value, old(slots[id].token), saved, id)
      ensures stores <= old(stores) + 1 && (result.None? ==> stores == old(stores))
      ensures OnlyNew(old(caches), caches, old(next)) && Filled(old(slots), slots, saved)
    {
      NothingFilled(slots, exchanged);
      SameOnlyNew(caches, next);
      saved := [];
      if Usable(slots[id], now) { return Some(slots[id].token), []; }
      hide Filled, Issued, OnlyNew, Evicts, InCache, Usable;
      ghost var evicted;
      var seen;
      evicted, seen := Meanwhile();
      ghost var mid, held, n := caches, slots, next;
      ghost var more;
      if out.joins {
        result, more := Join(id, out.fails);
      } else {
        result, more := Fetch(id, out.answer);
      }
      OnlyNewOn(old(caches), mid, caches, old(next), n);
      FilledOn(old(slots), held, slots, seen, more);
      if result.Some? { InCacheOn(old(slots), held, seen, more, id, result.value); }
      saved := seen + more;
    }

    /** Waiting for a fetch that another caller leads. Fetches of one cache do not overlap, so unless it
        fails it is the first to store here. */
    method Join(id: nat, fails: bool) returns (result: Option<string>, ghost saved: seq<Saved>)
      requires Valid() && id in slots
      modifies this`caches, this`slots, this`next, this`exchanged, this`published, this`now
      ensures Valid() && Later()
      ensures var first := FirstFor(saved, id); result == if fails || first.None? then None else Some(first.value.token)
      ensures result.Some? ==> (slots[id].raw, result.value) in exchanged && InCache(result.value, old(slots[id].token), saved, id)
      ensures OnlyNew(old(caches), caches, old(next)) && Filled(old(slots), slots, saved)
    {
      hide Filled, OnlyNew, Evicts;
      ghost var evicted;
      var seen;
      evicted, seen := Meanwhile();
      saved := seen;
      var first := FirstFor(seen, id);
      FirstIsIn(seen, id);
      result := if fails || first.None? then None else Some(first.value.token);
    }

    /** The fetch in flight, led by this caller: the second look, the exchange, the store. */
    method Fetch(id: nat, answer: Option<Grant>) returns (result: Option<string>, ghost saved: seq<Saved>)
      requires Valid() && id in slots
      modifies this`caches, this`slots, this`next, this`exchanged, this`published, this`now, this`stores
      ensures Valid() && Later()
      ensures old(Usable(slots[id], now)) ==> result == Some(old(slots[id].token)) && stores == old(stores)
      ensures !old(Usable(slots[id], now)) ==>
                if answer.Some? && answer.value.token != ""
                then && result == Some(answer.value.token) && stores == old(stores) + 1
                     && slots[id] == Slot(old(slots[id].raw), answer.value.token, answer.value.expiry)
                else result.None? && stores == old(stores)
      ensures result.Some? ==> (slots[id].raw, result.value) in exchanged && InCache(result.value, old(slots[id].token), saved, id)
      ensures OnlyNew(old(caches), caches, old(next)) && Filled(old(slots), slots, saved)
    {
      NothingFilled(slots, exchanged);
      SameOnlyNew(caches, next);
      saved := [];
      if Usable(slots[id], now) { return Some(slots[id].token), []; }
      hide Filled, OnlyNew, Usable, InCache;
      var g;
      g, saved := Exchange(slots[id].raw, answer);
      if g.None? { return None, saved; }
      OneFilled(slots, id, g.value);
      ghost var held := slots;
      Save(id, g.value);
      FilledOn(old(slots), held, slots, saved, [Saved(id, g.value)]);
      StoredLast(saved, id, g.value, old(slots[id].token));
      saved := saved + [Saved(id, g.value)];
      stores := stores + 1;
      result := Some(g.value.token);
    }

    /** Make a cache object and offer it to the map; `actual` is the one to use. */
    method Offer(raw: string) returns (actual: nat, own: nat)
      requires Valid()
      modifies this`caches, this`slots, this`next, this`exchanged, this`published, this`now
      ensures Valid() && Later()
      ensures own in slots && own < next && actual in slots && digest(slots[actual].raw) == digest(raw)
      ensures BoundOnly(caches, own, if actual == own then {digest(raw)} else {})
    {
      hide OnlyNew, Evicts, BoundOnly, Filled, Issued;
      ghost var gone;
      var seen;
      gone, seen := Meanwhile();
      own := NewSlot(raw);
      gone, seen := Meanwhile();
      actual := LoadOrStore(digest(raw), own);
      OfferBinds(caches, digest(raw), own, actual);
    }

    /** Get on the cache object to use; an own one that fails is taken out again. */
    method UseFirst(raw: string, actual: nat, own: nat, out: Outside) returns (result: Option<string>)
      requires Valid() && own < next && actual in slots && digest(slots[actual].raw) == digest(raw)
      requires BoundOnly(caches, own, if actual == own then {digest(raw)} else {})
      modifies this`caches, this`slots, this`next, this`exchanged, this`published, this`now, this`stores
      ensures Valid() && Later()
      ensures result.Some? ==> (slots[actual].raw, result.value) in exchanged
      ensures result.None? ==> stores == old(stores) && BoundOnly(caches, own, {})
      ensures result.None? && !out.joins ==> out.answer.None? || out.answer.value.token == ""
    {
      hide OnlyNew, Evicts, BoundOnly, Usable, Filled, Issued, InCache;
      ghost var keys := if actual == own then {digest(raw)} else {};
      ghost var before, n := caches, next;
      ghost var gone;
      var seen;
      gone, seen := Meanwhile();
      StaysBoundOnly(before, caches, n, own, keys);
      before, n := caches, next;
      ghost var saved;
      result, saved := Get(actual, out);
      StaysBoundOnly(before, caches, n, own, keys);
      before, n := caches, next;
      gone, seen := Meanwhile();
      StaysBoundOnly(before, caches, n, own, keys);
      if result.None? && actual == own {
        before := caches;
        CompareAndDelete(digest(raw), own);
        Unbinds(before, digest(raw), own);
      }
    }

    /** A first use that nobody interrupts and whose exchange succeeds. */
    method FirstUse(raw: string, g: Grant) returns (id: nat)
      requires Valid() && digest(raw) !in caches
      modifies this`caches, this`slots, this`next, this`exchanged, this`published
      ensures Valid() && id == old(next) && next == id + 1 && published == old(published) + {id}
      ensures caches == old(caches)[digest(raw) := id] && slots == old(slots)[id := Slot(raw, g.token, g.expiry)]
    {
      id := NewSlot(raw);
      var actual := LoadOrStore(digest(raw), id);
      Receive(raw, g);
      Save(actual, g);
    }

    // ---------- the amortized cleanup ----------

    /** Range hands over one key and its cache; an expired one is deleted by key. `look` is what was tested. */
    method SweepKey(key: string) returns (ghost look: Option<Look>)
      requires Valid()
      modifies this`caches, this`slots, this`next, this`exchanged, this`published, this`now, this`removals
      ensures Stays(old(caches), caches, key) ==>
                look.Some? && !IsExpired(look.value.slot, look.value.at) && old(now) <= look.value.at <= now
      ensures look.Some? <==> key in old(caches)
      ensures if look.Some? && IsExpired(look.value.slot, look.value.at)
              then OneMoreProper(old(removals), removals, key, look.value) else removals == old(removals)
      ensures OnlyNew(old(caches), caches, old(next))
      ensures Valid() && Later()
    {
      hide IsExpired, OnlyNew, Evicts, Filled, Issued, Proper;
      look := None;
      SameOnlyNew(caches, next);
      if key !in caches { return; }
      var id := caches[key];
      ghost var evicted;
      var seen;
      evicted, seen := Meanwhile();
      look := Some(Look(slots[id], now));
      if IsExpired(slots[id], now) {
        ghost var found, r;
        found, r := DeleteTested(key, id, old(caches), old(slots), old(next), evicted, seen);
        DeletedOnly(old(caches), found, old(next), key);
      }
    }

    /** The deletion of a cache found to have expired. It is by key alone: it takes out whatever is bound
        there by then. `start`, `held` and `n` are the map, the caches and the counter when the key was
        read, `evicted` and `earlier` what others took out and stored since. */
    method DeleteTested(key: string, id: nat, ghost start: map<string, nat>, ghost held: map<nat, Slot>, ghost n: nat,
                        ghost evicted: set<string>, ghost earlier: seq<Saved>)
      returns (ghost found: map<string, nat>, ghost r: Removal)
      requires Valid() && id in slots && IsExpired(slots[id], now) && key in start && start[key] == id && id in held
      requires OnlyNew(start, caches, n) && Evicts(start, caches, evicted) && n <= next && (forall k :: k in start ==> start[k] < n)
      requires Filled(held, slots, earlier) && forall i :: i in held ==> i < n
      modifies this`caches, this`slots, this`next, this`exchanged, this`published, this`now, this`removals
      ensures Valid() && Later()
      ensures caches == found - {key} && OnlyNew(start, found, n)
      ensures removals == old(removals) + [r] && Proper(r)
      ensures r.key == key && r.tested == id && r.look == Look(old(slots[id]), old(now)) && r.at == now
      ensures (r.overtaken <==> !Stays(start, found, key)) && r.earlier == earlier && Filled(old(slots), slots, r.since)
      ensures if key in found then r.gone == Some(found[key]) && found[key] in slots && r.slot == slots[found[key]] else r.gone.None?
    {
      hide IsExpired, OnlyNew, Evicts, Filled, Issued, Proper;
      ghost var more;
      var since;
      more, since := Meanwhile();
      EvictsOn(start, old(caches), caches, n, old(next), evicted, more);
      DeletesTested(start, caches, key, evicted + more);
      NewOrTested(start, caches, n, key);
      found := caches;
      ghost var look := Look(old(slots[id]), old(now));
      r := if key in caches
        then Removal(key, id, look, key in evicted + more, earlier, since, Some(caches[key]), slots[caches[key]], now)
        else Removal(key, id, look, key in evicted + more, earlier, since, None, look.slot, now);
      RemovalProper(r, n, held, old(slots), slots);
      removals := removals + [r];
      Delete(key);
    }

    /** The whole cleanup. Range visits every key that is bound throughout, and perhaps some that come and
        go. A binding survives only if its cache was found not to have expired during the cleanup. */
    method EvictExpired() returns (ghost cleared: map<string, Look>)
      requires Valid() && AllProper(removals)
      modifies this`caches, this`slots, this`next, this`exchanged, this`published, this`now, this`removals
      ensures AllProper(removals)
      ensures Cleared(old(caches), caches, {}, cleared, old(now), now)
      ensures OnlyNew(old(caches), caches, old(next))
      ensures Valid() && Later()
    {
      hide OnlyNew, Evicts, Cleared, Proper, AllProper, OneMoreProper;
      var extra: set<string> := *;
      var todo := caches.Keys + extra;
      cleared := map[];
      SameOnlyNew(caches, next);
      NothingCleared(caches, todo, now);
      while todo != {}
        invariant AllProper(removals)
        invariant Cleared(old(caches), caches, todo, cleared, old(now), now)
        invariant OnlyNew(old(caches), caches, old(next))
        invariant Valid() && Later()
        decreases |todo|
      {
        var key :| key in todo;
        ghost var mid, m, t, rs := caches, next, now, removals;
        ghost var look := SweepKey(key);
        MoreProper(rs, removals, key, look);
        ClearedOn(old(caches), mid, caches, old(next), m, todo, key, cleared, look, old(now), t, now);
        OnlyNewOn(old(caches), mid, caches, old(next), m);
        cleared := if look.Some? then cleared[key := look.value] else cleared;
        todo := todo - {key};
      }
    }

    // ---------- Token ----------

    /** Token: the credential returned was issued for an identity with the digest of the one that asked, so
        for that very identity unless digests collide. A call that joins no other's fetch fails only for
        want of a URL or an identity, or with its exchange. A failed first fetch stores nothing and leaves no
        cache object of its own behind. The cleanup after a slow call deletes by key; what each deletion
        took out, and exactly when that was a usable token, is said by `Proper`. */
    method Token(raw: string, out: Outside) returns (result: Option<string>, ghost own: Option<nat>)
      requires Valid() && AllProper(removals)
      modifies this
      ensures result.Some? ==> exists r :: digest(r) == digest(raw) && (r, result.value) in exchanged
      ensures result.Some? && Distinct(raw) ==> (raw, result.value) in exchanged
      ensures exchangeURL == "" || raw == "" ==> result.None? && caches == old(caches) && exchanged == old(exchanged)
      ensures own.Some? <==> exchangeURL != "" && raw != "" && digest(raw) !in old(caches)
      ensures own.Some? && result.None? ==> BoundOnly(caches, own.value, {})
      ensures result.None? ==> stores == old(stores)
      ensures result.None? && !out.joins ==> exchangeURL == "" || raw == "" || out.answer.None? || out.answer.value.token == ""
      ensures own.None? ==> removals == old(removals)
      ensures AllProper(removals)
      ensures Valid() && Later()
    {
      hide OnlyNew, Evicts, BoundOnly, Usable, AllProper, Filled, Issued, InCache;
      own := None;
      if exchangeURL == "" || raw == "" { return None, None; }
      var key := digest(raw);
      if key in caches {
        var id := caches[key];
        ghost var gone, saved;
        var seen;
        gone, seen := Meanwhile();
        result, saved := Get(id, out);
        IssuedFor(digest, exchanged, slots[id].raw, raw, result);
        return result, None;
      }
      var actual, c := Offer(raw);
      result := UseFirst(raw, actual, c, out);
      own := Some(c);
      IssuedFor(digest, exchanged, slots[actual].raw, raw, result);
      ghost var before, n := caches, next;
      ghost var cleared := EvictExpired();
      if result.None? { StaysBoundOnly(before, caches, n, c, {}); }
    }
  }

  /** A fresh cache can be lost: two callers' cleanups test the same expired cache, one deletes it, another
      caller stores a replacement with a fresh token, and the other cleanup deletes that by its key. */
  method LoseFreshCache() returns (p: OidcProvider, tested: nat, lost: nat)
    ensures fresh(p) && p.Valid() && tested in p.slots && lost in p.slots && lost != tested
    ensures IsExpired(p.slots[tested], p.now) && Usable(p.slots[lost], p.now)
    ensures p.slots[lost].raw == p.slots[tested].raw && lost in p.published && BoundOnly(p.caches, lost, {})
  {
    var key := "identity";
    p := new OidcProvider("https://sts", (s: string) => s, 0);
    var held := p.FirstUse(key, Grant("first", SECOND));
    p.Wait(MINUTE);
    var one, other := p.caches[key], p.caches[key];
    var oneExpired, otherExpired := IsExpired(p.slots[one], p.now), IsExpired(p.slots[other], p.now);
    if oneExpired { p.Delete(key); }
    lost := p.FirstUse(key, Grant("second", HOUR));
    if otherExpired { p.Delete(key); }
    tested := other;
  }

  /** So can the tested cache itself: after the test a caller that had found it earlier renews its token in
      place, and the cleanup deletes it all the same. */
  method LoseRefreshedCache() returns (p: OidcProvider, lost: nat)
    ensures fresh(p) && p.Valid() && lost in p.slots && lost in p.published && BoundOnly(p.caches, lost, {})
    ensures Usable(p.slots[lost], p.now)
  {
    var key := "identity";
    p := new OidcProvider("https://sts", (s: string) => s, 0);
    lost := p.FirstUse(key, Grant("first", SECOND));
    p.Wait(MINUTE);
    var expired := IsExpired(p.slots[lost], p.now);
    p.Refresh(lost, Grant("second", HOUR));
    HasLast(Saved(lost, Grant("second", HOUR)));
    if expired { p.Delete(key); }
  }

  lemma HasLast(x: Saved)
    ensures LastFor([x], x.id) == Some(x.grant)
  {
  }
}

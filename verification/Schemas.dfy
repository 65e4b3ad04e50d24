/** Context schemas of GovernedResources: creates and replacements are checked against the peers that
    share the context fetcher, so that the schemas of a fetcher form a chain. */
module Schemas {
  import opened Api

  /** Declared fields and their "type" entry (None when there is none). */
  type Schema = map<string, Option<string>>

  datatype Resource = Resource(fetcher: string, schema: Option<Schema>)

  type Store = map<string, Resource>

  /** Every field is still there, with its type. */
  predicate Extends(older: Schema, newer: Schema) {
    forall k :: k in older ==> k in newer && newer[k] == older[k]
  }

  /** What may replace a schema; dropping it altogether needs it to declare nothing. */
  predicate MayFollow(older: Option<Schema>, newer: Option<Schema>) {
    older.Some? ==> if newer.Some? then Extends(older.value, newer.value) else |older.value| == 0
  }

  /** The resources a check concerns. */
  predicate Chained(r: Resource) {
    r.fetcher != "none" && r.schema.Some?
  }

  predicate Peers(a: Resource, b: Resource) {
    Chained(a) && Chained(b) && a.fetcher == b.fetcher
  }

  predicate Consistent(store: Store, name: string, r: Resource) {
    Chained(r) ==> forall m :: m in store && m != name && Peers(store[m], r) ==> Extends(store[m].schema.value, r.schema.value)
  }

  // ---------- the checks ----------

  /** checkContextSchemaAppendOnly. */
  method AppendOnly(older: Option<Schema>, newer: Option<Schema>) returns (ok: bool)
    ensures ok <==> MayFollow(older, newer)
    ensures ok <==> || older.None?
                    || (newer.None? && older.value == map[])
                    || (newer.Some? && forall k :: k in older.value ==> k in newer.value && newer.value[k] == older.value[k])
  {
    if older.None? { return true; }
    if newer.None? { return |older.value| == 0; }
    var todo := older.value.Keys;
    while todo != {}
      invariant todo <= older.value.Keys
      invariant forall k :: k in older.value && k !in todo ==> k in newer.value && newer.value[k] == older.value[k]
      decreases |todo|
    {
      var k :| k in todo;
      if k !in newer.value || newer.value[k] != older.value[k] { return false; }
      todo := todo - {k};
    }
    ok := true;
  }

  /** checkContextSchemaConsistency. */
  method CheckConsistency(store: Store, name: string, r: Resource) returns (ok: bool)
    ensures ok <==> Consistent(store, name, r)
    ensures ok <==> || r.fetcher == "none" || r.schema.None?
                    || forall m, k :: m in store && m != name && store[m].fetcher == r.fetcher && store[m].schema.Some?
                                      && k in store[m].schema.value ==>
                         k in r.schema.value && r.schema.value[k] == store[m].schema.value[k]
  {
    if r.fetcher == "none" || r.schema.None? { return true; }
    var todo := store.Keys;
    while todo != {}
      invariant todo <= store.Keys
      invariant forall m :: m in store && m !in todo && m != name && Peers(store[m], r) ==>
                  Extends(store[m].schema.value, r.schema.value)
      decreases |todo|
    {
      var m :| m in todo;
      todo := todo - {m};
      if m != name && store[m].fetcher == r.fetcher && store[m].schema.Some? {
        var fits := AppendOnly(store[m].schema, r.schema);
        if !fits { return false; }
      }
    }
    ok := true;
  }

  // ---------- the store ----------

  datatype Request =
    | Create(name: string, r: Resource)
    | Replace(name: string, r: Resource)
    | Delete(name: string, blocked: bool)

  predicate Accepted(store: Store, q: Request) {
    match q
    case Create(name, r) => Consistent(store, name, r) && name !in store
    case Replace(name, r) => Consistent(store, name, r) && name in store && MayFollow(store[name].schema, r.schema)
    case Delete(name, blocked) => name in store && !blocked
  }

  /** The store after one request; a refused one changes nothing. */
  function Serve(store: Store, q: Request): Store {
    if !Accepted(store, q) then store
    else match q
      case Create(name, r) => store[name := r]
      case Replace(name, r) => store[name := r]
      case Delete(name, _) => store - {name}
  }

  function ServeAll(store: Store, qs: seq<Request>): Store {
    if qs == [] then store else Serve(ServeAll(store, qs[..|qs| - 1]), qs[|qs| - 1])
  }

  /** The GovernedResource objects, written by serialized admin requests. */
  class Registry {
    var store: Store

    constructor ()
      ensures store == map[]
    {
      store := map[];
    }

    method Handle(q: Request) returns (ok: bool)
      modifies this
      ensures ok <==> Accepted(old(store), q)
      ensures store == Serve(old(store), q)
      ensures store == if !ok then old(store) else if q.Delete? then old(store) - {q.name} else old(store)[q.name := q.r]
    {
      hide Consistent, MayFollow;
      match q
      case Create(name, r) =>
        ok := CheckConsistency(store, name, r);
        if !ok || name in store { return false; }
        store := store[name := r];
      case Replace(name, r) =>
        ok := CheckConsistency(store, name, r);
        if !ok || name !in store { return false; }
        ok := AppendOnly(store[name].schema, r.schema);
        if ok { store := store[name := r]; }
      case Delete(name, blocked) =>
        if name !in store || blocked { return false; }
        store := store - {name};
        ok := true;
    }
  }

  // ---------- the chain ----------

  predicate InChain(a: Resource, b: Resource) {
    Peers(a, b) ==> Extends(a.schema.value, b.schema.value) || Extends(b.schema.value, a.schema.value)
  }

  /** Of any two schemas of one fetcher one extends the other. */
  predicate Chain(store: Store) {
    forall m, n :: m in store && n in store ==> InChain(store[m], store[n])
  }

  lemma ServeKeepsChain(store: Store, q: Request)
    requires Chain(store)
    ensures Chain(Serve(store, q))
  {
    var store' := Serve(store, q);
    if Accepted(store, q) && !q.Delete? {
      forall m, n | m in store' && n in store' ensures InChain(store'[m], store'[n]) {
        assert m != q.name && n != q.name ==> InChain(store[m], store[n]);
      }
    }
  }

  /** After any requests the schemas sharing a fetcher are totally ordered by extension. */
  lemma {:induction false} AlwaysChain(qs: seq<Request>)
    ensures Chain(ServeAll(map[], qs))
  {
    if qs != [] {
      hide Chain, Serve;
      AlwaysChain(qs[..|qs| - 1]);
      ServeKeepsChain(ServeAll(map[], qs[..|qs| - 1]), qs[|qs| - 1]);
    }
  }

  /** So a field declared by two of them has one type. */
  lemma OneTypePerField(qs: seq<Request>, m: string, n: string, field: string)
    requires var store := ServeAll(map[], qs);
             && m in store && n in store && Peers(store[m], store[n])
             && field in store[m].schema.value && field in store[n].schema.value
    ensures var store := ServeAll(map[], qs);
            store[m].schema.value[field] == store[n].schema.value[field]
  {
    AlwaysChain(qs);
    hide ServeAll;
    var store := ServeAll(map[], qs);
    assert InChain(store[m], store[n]);
  }
}

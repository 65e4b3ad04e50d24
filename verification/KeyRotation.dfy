/** The gateway's token signing keys: reloads that may or may not rotate, and validation with a grace
    period for the previous key. Signatures are ideal: a token names its signer. */
module KeyRotation {
  import opened Api

  const GRACE: int := 5 * MINUTE
  const TOKEN_TTL: int := 30 * MINUTE
  const ISSUER := "aip-gateway"

  type Key = nat

  datatype Jwt = Jwt(signer: Key, eddsa: bool, issuer: string, exp: Option<int>, nbf: Option<int>)

  /** Claims carry whole seconds. */
  function WholeSeconds(t: int): int {
    t / SECOND * SECOND
  }

  /** validateWithKey: signature, algorithm, issuer and time claims. */
  predicate Verifies(t: Jwt, key: Key, now: int) {
    && t.eddsa && t.signer == key && t.issuer == ISSUER
    && (t.exp.Some? ==> now < t.exp.value) && (t.nbf.Some? ==> now >= t.nbf.value)
  }

  datatype Keys = Keys(current: Key, previous: Option<Key>, rotatedAt: int)

  predicate Accepts(k: Keys, t: Jwt, now: int) {
    || Verifies(t, k.current, now)
    || (k.previous.Some? && now - k.rotatedAt <= GRACE && Verifies(t, k.previous.value, now))
  }

  /** What one reload does; `loaded` is None when the file cannot be read or parsed. */
  function Reloaded(k: Keys, loaded: Option<Key>, now: int): Keys {
    if loaded.None? || loaded.value == k.current then k else Keys(loaded.value, Some(k.current), now)
  }

  function Minted(k: Keys, now: int): Jwt {
    Jwt(k.current, true, ISSUER, Some(WholeSeconds(now + TOKEN_TTL)), None)
  }

  class Manager {
    var privateKey: Key
    var publicKey: Key
    var prevPublic: Option<Key>
    var lastRotate: int

    predicate Valid()
      reads this
    {
      privateKey == publicKey
    }

    function State(): Keys
      reads this
    {
      Keys(publicKey, prevPublic, lastRotate)
    }

    constructor (key: Key, now: int)
      ensures Valid() && State() == Keys(key, None, now)
    {
      privateKey, publicKey, prevPublic, lastRotate := key, key, None, now;
    }

    method ReloadKey(loaded: Option<Key>, now: int) returns (ok: bool)
      requires Valid()
      modifies this
      ensures Valid() && (ok <==> loaded.Some?) && State() == Reloaded(old(State()), loaded, now)
    {
      if loaded.None? { return false; }
      ok := true;
      if loaded.value == publicKey { return; }
      prevPublic := Some(publicKey);
      privateKey, publicKey, lastRotate := loaded.value, loaded.value, now;
    }

    method MintToken(now: int) returns (t: Jwt, expiresAt: int)
      requires Valid()
      ensures t == Minted(State(), now) && expiresAt == now + TOKEN_TTL && Accepts(State(), t, now)
      ensures t.signer == publicKey && t.eddsa && t.issuer == "aip-gateway" && t.nbf.None? && t.exp.Some?
      ensures expiresAt == now + 1_800_000_000_000
      ensures expiresAt - 1_000_000_000 < t.exp.value <= expiresAt && t.exp.value % 1_000_000_000 == 0
    {
      expiresAt := now + TOKEN_TTL;
      t := Jwt(privateKey, true, ISSUER, Some(WholeSeconds(expiresAt)), None);
    }

    method ValidateToken(t: Jwt, now: int) returns (ok: bool)
      ensures ok <==> Accepts(State(), t, now)
    {
      ok := Verifies(t, publicKey, now);
      if ok { return; }
      if prevPublic.Some? && now - lastRotate <= GRACE {
        ok := Verifies(t, prevPublic.value, now);
      }
    }
  }

  // ---------- whole runs ----------

  datatype Reload = Reload(loaded: Option<Key>, at: int)

  function After(k: Keys, rs: seq<Reload>): Keys {
    if rs == [] then k
    else Reloaded(After(k, rs[..|rs| - 1]), rs[|rs| - 1].loaded, rs[|rs| - 1].at)
  }

  datatype Installed = Installed(key: Key, at: int)

  /** The keys that were really installed, with the time of each: reloads that fail or bring the same key
      again do not appear. */
  function Rotations(first: Installed, rs: seq<Reload>): seq<Installed> {
    if rs == [] then [first]
    else
      var before, r := Rotations(first, rs[..|rs| - 1]), rs[|rs| - 1];
      if r.loaded.Some? && (before == [] || r.loaded.value != before[|before| - 1].key)
      then before + [Installed(r.loaded.value, r.at)] else before
  }

  /** What a key history means for the manager. */
  function FromHistory(h: seq<Installed>): Keys
    requires h != []
  {
    var last := h[|h| - 1];
    Keys(last.key, if |h| > 1 then Some(h[|h| - 2].key) else None, last.at)
  }

  lemma {:induction false} HistoryDecides(first: Installed, rs: seq<Reload>)
    ensures Rotations(first, rs) != []
    ensures After(Keys(first.key, None, first.at), rs) == FromHistory(Rotations(first, rs))
    ensures forall i, j :: 0 <= i < j < |Rotations(first, rs)| && j == i + 1 ==>
              Rotations(first, rs)[i].key != Rotations(first, rs)[j].key
  {
    if rs != [] { HistoryDecides(first, rs[..|rs| - 1]); }
  }

  /** Over any run, a token is accepted exactly when it is in time and signed by the latest installed key,
      or by the one installed just before it and at most five minutes have passed since. */
  lemma AcceptedExactly(first: Installed, rs: seq<Reload>, t: Jwt, now: int)
    ensures var h, k := Rotations(first, rs), After(Keys(first.key, None, first.at), rs);
            && h != []
            && (Accepts(k, t, now) <==>
                  && t.eddsa && t.issuer == "aip-gateway"
                  && (t.exp.Some? ==> now < t.exp.value) && (t.nbf.Some? ==> now >= t.nbf.value)
                  && (|| t.signer == h[|h| - 1].key
                      || (|h| > 1 && t.signer == h[|h| - 2].key && now - h[|h| - 1].at <= 300_000_000_000)))
  {
    HistoryDecides(first, rs);
  }

  /** Reloading the key that is installed, or failing to, changes nothing: not the grace period either. */
  lemma {:induction false} SameKeyReloads(k: Keys, rs: seq<Reload>)
    requires forall i :: 0 <= i < |rs| ==> rs[i].loaded.None? || rs[i].loaded.value == k.current
    ensures After(k, rs) == k
  {
    if rs != [] { SameKeyReloads(k, rs[..|rs| - 1]); }
  }

  /** The same from any state of the manager: as long as nothing is really installed it stays as it is. */
  lemma {:induction false} HistoryFrom(k: Keys, rs: seq<Reload>)
    ensures var h := Rotations(Installed(k.current, k.rotatedAt), rs);
            h != [] && h[0] == Installed(k.current, k.rotatedAt) && After(k, rs) == if |h| == 1 then k else FromHistory(h)
  {
    if rs != [] { HistoryFrom(k, rs[..|rs| - 1]); }
  }

  /** The key was never installed again. */
  predicate Retired(h: seq<Installed>, key: Key) {
    forall i :: 0 < i < |h| ==> h[i].key != key
  }

  /** A minted token lives less than its half hour. Whatever reloads follow, it is accepted while its key is
      the latest installed, and for the grace period after being replaced; a key that is not installed
      again survives one real rotation by that much and no second one. */
  lemma MintedLifetime(k: Keys, rs: seq<Reload>, at: int, now: int)
    ensures var h, accepted, inTime :=
              Rotations(Installed(k.current, k.rotatedAt), rs), Accepts(After(k, rs), Minted(k, at), now),
              now < (at + 1_800_000_000_000) / 1_000_000_000 * 1_000_000_000;
            && h != []
            && (accepted <==> inTime && (|| h[|h| - 1].key == k.current
                                         || (|h| > 1 && h[|h| - 2].key == k.current && now - h[|h| - 1].at <= 300_000_000_000)))
            && (Retired(h, k.current) ==>
                  (accepted <==> inTime && (|h| == 1 || (|h| == 2 && now - h[1].at <= 300_000_000_000))))
            && (now >= at + 1_800_000_000_000 ==> !accepted)
  {
    HistoryFrom(k, rs);
  }
}

/** The token cache around singleflight as interleaved steps: any number of callers, clock ticks and
    deletions, each mutex-protected section one step. The log is history, never consulted. */
module TokenCache {
  import opened Api

  const REFRESH_BUFFER: int := 5 * MINUTE
  const LEGACY_BUFFER: int := 30 * SECOND

  datatype Entry = Entry(token: string, expiry: int)

  /** GetOrFetch keeps many keys; Get keeps one token under the fixed singleflight key. */
  datatype Mode = MultiKey | Legacy

  predicate Fresh(mode: Mode, e: Entry, now: int) {
    match mode
    case MultiKey => e.expiry - now >= REFRESH_BUFFER
    case Legacy => e.token != "" && now + LEGACY_BUFFER < e.expiry
  }

  /** What a result rests on: the entry stored after the first `at` events, found fresh at that time, or
      event number `at`, with which a fetch ended. */
  datatype Basis = Found(at: nat, time: int) | Ended(at: nat)

  /** Where the one running call of a key stands. */
  datatype Stage = Checking | Fetching | Storing(e: Entry) | Delivering(result: Option<string>, basis: Basis)

  datatype Flight = Flight(stage: Stage, members: set<nat>)

  /** `asked` is how many events there were when the caller asked; a caller is late if the call it joined
      had its result already. */
  datatype Caller =
    | Asking(key: string, asked: nat)
    | Joining(key: string, asked: nat)
    | Waiting(key: string, asked: nat, late: bool)
    | Done(key: string, asked: nat, late: bool, result: Option<string>, basis: Basis)

  datatype Event =
    | Started(key: string, at: int)
    | Stored(key: string, e: Entry)
    | Refused(key: string)
    | Dropped(key: string)

  datatype State = State(
    now: int, store: map<string, Entry>, flights: map<string, Flight>, callers: map<nat, Caller>, log: seq<Event>)

  function Init(t0: int): State {
    State(t0, map[], map[], map[], [])
  }

  predicate Cached(mode: Mode, s: State, key: string) {
    key in s.store && Fresh(mode, s.store[key], s.now)
  }

  datatype Step =
    | Tick(d: nat)
    | Ask(id: nat, key: string)
    | Look(id: nat)
    | Join(id: nat)
    | Recheck(key: string)
    | Answer(key: string, outcome: Option<Entry>)
    | Save(key: string)
    | Deliver(key: string)
    | Delete(key: string)

  predicate At(s: State, key: string, stage: Stage) {
    key in s.flights && s.flights[key].stage == stage
  }

  function Move(s: State, key: string, stage: Stage): State
    requires key in s.flights
  {
    s.(flights := s.flights[key := s.flights[key].(stage := stage)])
  }

  function Note(s: State, e: Event): State {
    s.(log := s.log + [e])
  }

  /** The first look at the cache. */
  function DoLook(mode: Mode, s: State, id: nat): State {
    if id in s.callers && s.callers[id].Asking? then
      var key, asked := s.callers[id].key, s.callers[id].asked;
      s.(callers := s.callers[id := if Cached(mode, s, key)
                                    then Done(key, asked, false, Some(s.store[key].token), Found(|s.log|, s.now))
                                    else Joining(key, asked)])
    else s
  }

  /** singleflight.Do: join the running call or lead a new one. */
  function DoJoin(s: State, id: nat): State {
    if id in s.callers && s.callers[id].Joining? then
      var key, asked := s.callers[id].key, s.callers[id].asked;
      if key in s.flights then
        var flight := s.flights[key];
        s.(callers := s.callers[id := Waiting(key, asked, flight.stage.Delivering?)],
           flights := s.flights[key := flight.(members := flight.members + {id})])
      else
        s.(callers := s.callers[id := Waiting(key, asked, false)], flights := s.flights[key := Flight(Checking, {id})])
    else s
  }

  /** The double check inside the running call. */
  function DoRecheck(mode: Mode, s: State, key: string): State {
    if At(s, key, Checking) then
      if Cached(mode, s, key) then Move(s, key, Delivering(Some(s.store[key].token), Found(|s.log|, s.now)))
      else Note(Move(s, key, Fetching), Started(key, s.now))
    else s
  }

  /** The fetch returns; an error stores nothing. */
  function DoAnswer(s: State, key: string, outcome: Option<Entry>): State {
    if At(s, key, Fetching) then
      if outcome.Some? then Move(s, key, Storing(outcome.value))
      else Note(Move(s, key, Delivering(None, Ended(|s.log|))), Refused(key))
    else s
  }

  function DoSave(s: State, key: string): State {
    if key in s.flights && s.flights[key].stage.Storing? then
      var e := s.flights[key].stage.e;
      Note(Move(s, key, Delivering(Some(e.token), Ended(|s.log|))).(store := s.store[key := e]), Stored(key, e))
    else s
  }

  function Served(c: Caller, stage: Stage): Caller
    requires stage.Delivering?
  {
    if c.Waiting? then Done(c.key, c.asked, c.late, stage.result, stage.basis) else c
  }

  /** The running call ends: everyone in it gets its result. */
  function DoDeliver(s: State, key: string): State {
    if key in s.flights && s.flights[key].stage.Delivering? then
      var flight := s.flights[key];
      s.(flights := s.flights - {key},
         callers := map id | id in s.callers :: if id in flight.members then Served(s.callers[id], flight.stage) else s.callers[id])
    else s
  }

  function Do(mode: Mode, s: State, a: Step): State {
    match a
    case Tick(d) => s.(now := s.now + d)
    case Ask(id, key) => if id in s.callers then s else s.(callers := s.callers[id := Asking(key, |s.log|)])
    case Look(id) => DoLook(mode, s, id)
    case Join(id) => DoJoin(s, id)
    case Recheck(key) => DoRecheck(mode, s, key)
    case Answer(key, outcome) => DoAnswer(s, key, outcome)
    case Save(key) => DoSave(s, key)
    case Deliver(key) => DoDeliver(s, key)
    case Delete(key) => Note(s.(store := s.store - {key}), Dropped(key))
  }

  function Run(mode: Mode, t0: int, steps: seq<Step>): State {
    if steps == [] then Init(t0) else Do(mode, Run(mode, t0, steps[..|steps| - 1]), steps[|steps| - 1])
  }

  // ---------- reading the log ----------

  /** What the log says is stored. */
  function Replay(log: seq<Event>): map<string, Entry> {
    if log == [] then map[]
    else
      var before := Replay(log[..|log| - 1]);
      match log[|log| - 1]
      case Stored(key, e) => before[key := e]
      case Dropped(key) => before - {key}
      case _ => before
  }

  /** The keys the log says are being fetched. */
  function InFlight(log: seq<Event>): set<string> {
    if log == [] then {}
    else
      var before := InFlight(log[..|log| - 1]);
      match log[|log| - 1]
      case Started(key, _) => before + {key}
      case Stored(key, _) => before - {key}
      case Refused(key) => before - {key}
      case _ => before
  }

  /** A fetch for this key brought this token. */
  predicate FetchedFor(log: seq<Event>, key: string, token: string) {
    exists i :: 0 <= i < |log| && log[i].Stored? && log[i].key == key && log[i].e.token == token
  }

  /** A fetch starts only for a key that is not being fetched and whose stored token is not fresh. */
  predicate StartsWell(mode: Mode, log: seq<Event>) {
    forall i :: 0 <= i < |log| && log[i].Started? ==>
      && log[i].key !in InFlight(log[..i])
      && (log[i].key in Replay(log[..i]) ==> !Fresh(mode, Replay(log[..i])[log[i].key], log[i].at))
  }

  predicate IsRunning(stage: Stage) {
    stage == Fetching || stage.Storing?
  }

  /** The result follows from what it rests on: the token that was stored and fresh, the token a fetch
      brought, or nothing because the fetch was refused. */
  predicate Rests(mode: Mode, log: seq<Event>, key: string, result: Option<string>, basis: Basis) {
    match basis
    case Found(i, time) =>
      && i <= |log| && key in Replay(log[..i])
      && Fresh(mode, Replay(log[..i])[key], time) && result == Some(Replay(log[..i])[key].token)
    case Ended(i) =>
      && i < |log|
      && (|| (log[i].Stored? && log[i].key == key && result == Some(log[i].e.token))
          || (log[i] == Refused(key) && result == None))
  }

  predicate StoreInv(s: State) {
    && s.store == Replay(s.log)
    && (forall key :: key in s.store ==> FetchedFor(s.log, key, s.store[key].token))
  }

  predicate MemberInv(callers: map<nat, Caller>, stage: Stage, key: string, id: nat, now: nat) {
    && id in callers && callers[id].Waiting? && callers[id].key == key && callers[id].asked <= now
    && (callers[id].late ==> stage.Delivering?)
    && (stage.Delivering? && !callers[id].late ==> callers[id].asked <= stage.basis.at)
  }

  predicate FlightInv(mode: Mode, flights: map<string, Flight>, callers: map<nat, Caller>, log: seq<Event>, key: string)
    requires key in flights
  {
    var stage := flights[key].stage;
    && (forall id :: id in flights[key].members ==> MemberInv(callers, stage, key, id, |log|))
    && (stage.Delivering? ==> Rests(mode, log, key, stage.result, stage.basis))
    && (IsRunning(stage) <==> key in InFlight(log))
  }

  predicate CallerInv(mode: Mode, flights: map<string, Flight>, log: seq<Event>, id: nat, c: Caller) {
    && c.asked <= |log|
    && (c.Waiting? ==> c.key in flights && id in flights[c.key].members)
    && (c.Done? ==> Rests(mode, log, c.key, c.result, c.basis) && (!c.late ==> c.asked <= c.basis.at))
  }

  predicate Inv(mode: Mode, s: State) {
    && StoreInv(s) && StartsWell(mode, s.log)
    && (forall key :: key in s.flights ==> FlightInv(mode, s.flights, s.callers, s.log, key))
    && (forall key :: key in InFlight(s.log) ==> key in s.flights)
    && (forall id :: id in s.callers ==> CallerInv(mode, s.flights, s.log, id, s.callers[id]))
  }

  // ---------- every step keeps it ----------

  lemma Snoc(log: seq<Event>, e: Event)
    ensures (log + [e])[..|log + [e]| - 1] == log && (log + [e])[|log + [e]| - 1] == e
  {
  }

  lemma FetchedStays(log: seq<Event>, e: Event, key: string, token: string)
    requires FetchedFor(log, key, token)
    ensures FetchedFor(log + [e], key, token)
  {
    var i :| 0 <= i < |log| && log[i].Stored? && log[i].key == key && log[i].e.token == token;
    assert (log + [e])[i] == log[i];
  }

  lemma AllFetchedStay(log: seq<Event>, e: Event)
    ensures forall key, token :: FetchedFor(log, key, token) ==> FetchedFor(log + [e], key, token)
  {
    forall key, token | FetchedFor(log, key, token) ensures FetchedFor(log + [e], key, token) {
      FetchedStays(log, e, key, token);
    }
  }

  lemma RestsOn(mode: Mode, log: seq<Event>, e: Event, key: string, result: Option<string>, basis: Basis)
    requires Rests(mode, log, key, result, basis)
    ensures Rests(mode, log + [e], key, result, basis)
  {
    if basis.Found? { assert (log + [e])[..basis.at] == log[..basis.at]; }
  }

  lemma AllRestOn(mode: Mode, log: seq<Event>, e: Event)
    ensures forall key, result, basis :: Rests(mode, log, key, result, basis) ==> Rests(mode, log + [e], key, result, basis)
  {
    forall key, result, basis | Rests(mode, log, key, result, basis) ensures Rests(mode, log + [e], key, result, basis) {
      RestsOn(mode, log, e, key, result, basis);
    }
  }

  lemma RestsNow(mode: Mode, s: State, key: string)
    requires StoreInv(s) && Cached(mode, s, key)
    ensures Rests(mode, s.log, key, Some(s.store[key].token), Found(|s.log|, s.now))
  {
    assert s.log[..|s.log|] == s.log;
  }

  lemma RestsOnEnd(mode: Mode, log: seq<Event>, key: string, e: Entry)
    ensures Rests(mode, log + [Stored(key, e)], key, Some(e.token), Ended(|log|))
    ensures Rests(mode, log + [Refused(key)], key, None, Ended(|log|))
  {
  }

  lemma StartsOn(mode: Mode, log: seq<Event>, e: Event)
    requires StartsWell(mode, log)
    requires e.Started? ==> e.key !in InFlight(log) && (e.key in Replay(log) ==> !Fresh(mode, Replay(log)[e.key], e.at))
    ensures StartsWell(mode, log + [e])
  {
    var log' := log + [e];
    forall i | 0 <= i < |log'| && log'[i].Started?
      ensures log'[i].key !in InFlight(log'[..i])
      ensures log'[i].key in Replay(log'[..i]) ==> !Fresh(mode, Replay(log'[..i])[log'[i].key], log'[i].at)
    {
      assert log'[..i] == log[..i];
      if i == |log| { assert log[..i] == log; }
    }
  }

  lemma NoteKeeps(mode: Mode, s: State, e: Event)
    requires Inv(mode, s)
    requires e.Started? ==> e.key !in InFlight(s.log) && (e.key in Replay(s.log) ==> !Fresh(mode, Replay(s.log)[e.key], e.at))
    ensures StartsWell(mode, s.log + [e])
    ensures Replay(s.log + [e]) == match e case Stored(key, x) => s.store[key := x] case Dropped(key) => s.store - {key} case _ => s.store
    ensures InFlight(s.log + [e]) == match e
                                     case Started(key, _) => InFlight(s.log) + {key}
                                     case Stored(key, _) => InFlight(s.log) - {key}
                                     case Refused(key) => InFlight(s.log) - {key}
                                     case _ => InFlight(s.log)
    ensures forall key, token :: FetchedFor(s.log, key, token) ==> FetchedFor(s.log + [e], key, token)
    ensures forall key, result, basis :: Rests(mode, s.log, key, result, basis) ==> Rests(mode, s.log + [e], key, result, basis)
  {
    Snoc(s.log, e);
    AllFetchedStay(s.log, e);
    AllRestOn(mode, s.log, e);
    StartsOn(mode, s.log, e);
  }

  lemma LookKeeps(mode: Mode, s: State, id: nat)
    requires Inv(mode, s)
    ensures Inv(mode, DoLook(mode, s, id))
  {
    hide FetchedFor, StartsWell, Fresh, InFlight, Replay, Rests;
    if id in s.callers && Cached(mode, s, s.callers[id].key) { RestsNow(mode, s, s.callers[id].key); }
  }

  lemma JoinKeeps(mode: Mode, s: State, id: nat)
    requires Inv(mode, s)
    ensures Inv(mode, DoJoin(s, id))
  {
    hide FetchedFor, StartsWell, Replay, InFlight, Rests;
  }

  lemma RecheckKeeps(mode: Mode, s: State, key: string)
    requires Inv(mode, s)
    ensures Inv(mode, DoRecheck(mode, s, key))
  {
    hide FetchedFor, StartsWell, Replay, InFlight, Fresh, Rests;
    if At(s, key, Checking) {
      if Cached(mode, s, key) { RestsNow(mode, s, key); } else { NoteKeeps(mode, s, Started(key, s.now)); }
    }
  }

  lemma AnswerKeeps(mode: Mode, s: State, key: string, outcome: Option<Entry>)
    requires Inv(mode, s)
    ensures Inv(mode, DoAnswer(s, key, outcome))
  {
    hide FetchedFor, StartsWell, Replay, InFlight, Rests;
    NoteKeeps(mode, s, Refused(key));
    RestsOnEnd(mode, s.log, key, Entry("", 0));
  }

  lemma SaveKeeps(mode: Mode, s: State, key: string)
    requires Inv(mode, s)
    ensures Inv(mode, DoSave(s, key))
  {
    hide FetchedFor, StartsWell, Replay, InFlight, Rests;
    if key in s.flights && s.flights[key].stage.Storing? {
      var e := s.flights[key].stage.e;
      NoteKeeps(mode, s, Stored(key, e));
      RestsOnEnd(mode, s.log, key, e);
      FetchedLast(s.log, key, e);
    }
  }

  lemma FetchedLast(log: seq<Event>, key: string, e: Entry)
    ensures FetchedFor(log + [Stored(key, e)], key, e.token)
  {
    assert (log + [Stored(key, e)])[|log|] == Stored(key, e);
  }

  lemma DeliverKeeps(mode: Mode, s: State, key: string)
    requires Inv(mode, s)
    ensures Inv(mode, DoDeliver(s, key))
  {
    hide FetchedFor, StartsWell, Replay, InFlight, Rests;
  }

  lemma DeleteKeeps(mode: Mode, s: State, key: string)
    requires Inv(mode, s)
    ensures Inv(mode, Note(s.(store := s.store - {key}), Dropped(key)))
  {
    hide FetchedFor, StartsWell, Replay, InFlight, Rests;
    NoteKeeps(mode, s, Dropped(key));
  }

  lemma StepKeeps(mode: Mode, s: State, a: Step)
    requires Inv(mode, s)
    ensures Inv(mode, Do(mode, s, a))
  {
    match a
    case Look(id) => LookKeeps(mode, s, id);
    case Join(id) => JoinKeeps(mode, s, id);
    case Recheck(key) => RecheckKeeps(mode, s, key);
    case Answer(key, outcome) => AnswerKeeps(mode, s, key, outcome);
    case Save(key) => SaveKeeps(mode, s, key);
    case Deliver(key) => DeliverKeeps(mode, s, key);
    case Delete(key) => DeleteKeeps(mode, s, key);
    case _ => hide FetchedFor, StartsWell, Replay, InFlight, Rests;
  }

  lemma {:induction false} RunKeeps(mode: Mode, t0: int, steps: seq<Step>)
    ensures Inv(mode, Run(mode, t0, steps))
  {
    if steps != [] {
      hide Inv, Do;
      RunKeeps(mode, t0, steps[..|steps| - 1]);
      StepKeeps(mode, Run(mode, t0, steps[..|steps| - 1]), steps[|steps| - 1]);
    }
  }

  // ---------- what every run promises ----------

  predicate Ends(e: Event, key: string) {
    (e.Stored? || e.Refused?) && e.key == key
  }

  predicate Replaces(e: Event, key: string) {
    (e.Stored? || e.Dropped?) && e.key == key
  }

  lemma {:induction false} StaysInFlight(log: seq<Event>, i: nat, j: nat, key: string)
    requires i <= j <= |log| && key in InFlight(log[..i]) && forall k :: i <= k < j ==> !Ends(log[k], key)
    ensures key in InFlight(log[..j])
    decreases j - i
  {
    if i < j {
      StaysInFlight(log, i, j - 1, key);
      assert log[..j][..j - 1] == log[..j - 1];
    }
  }

  lemma {:induction false} StaysStored(log: seq<Event>, i: nat, j: nat, key: string, e: Entry)
    requires i <= j <= |log| && key in Replay(log[..i]) && Replay(log[..i])[key] == e
    requires forall k :: i <= k < j ==> !Replaces(log[k], key)
    ensures key in Replay(log[..j]) && Replay(log[..j])[key] == e
    decreases j - i
  {
    if i < j {
      StaysStored(log, i, j - 1, key, e);
      assert log[..j][..j - 1] == log[..j - 1];
    }
  }

  /** At most one fetch per key at a time: between two starts the first one has ended. */
  lemma OneFetchAtATime(mode: Mode, t0: int, steps: seq<Step>, i: nat, j: nat)
    requires var log := Run(mode, t0, steps).log;
             i < j < |log| && log[i].Started? && log[j].Started? && log[i].key == log[j].key
    ensures var log := Run(mode, t0, steps).log; exists k :: i < k < j && Ends(log[k], log[i].key)
  {
    RunKeeps(mode, t0, steps);
    hide Run;
    var log := Run(mode, t0, steps).log;
    assert log[..i + 1][..i] == log[..i];
    if forall k :: i + 1 <= k < j ==> !Ends(log[k], log[i].key) {
      StaysInFlight(log, i + 1, j, log[i].key);
      assert false;
    }
  }

  /** A stored token that has been neither replaced nor deleted is fetched anew only once it is no
      longer fresh: under GetOrFetch, with less than the refresh buffer left. */
  lemma RefetchOnlyWhenStale(mode: Mode, t0: int, steps: seq<Step>, i: nat, j: nat)
    requires var log := Run(mode, t0, steps).log;
             && i < j < |log| && log[i].Stored? && log[j].Started? && log[i].key == log[j].key
             && forall k :: i < k < j ==> !Replaces(log[k], log[i].key)
    ensures var log := Run(mode, t0, steps).log;
            && !Fresh(mode, log[i].e, log[j].at)
            && (mode == MultiKey ==> log[i].e.expiry - log[j].at < 5 * MINUTE)
            && (mode == Legacy ==> log[i].e.token == "" || log[i].e.expiry - log[j].at <= 30 * SECOND)
  {
    RunKeeps(mode, t0, steps);
    hide Run;
    var log := Run(mode, t0, steps).log;
    assert log[..i + 1][..i] == log[..i];
    StaysStored(log, i + 1, j, log[i].key, log[i].e);
  }

  /** The cache is what the successful fetches and the deletions made it; failures leave no trace. */
  lemma StoreMatchesLog(mode: Mode, t0: int, steps: seq<Step>)
    ensures Run(mode, t0, steps).store == Replay(Run(mode, t0, steps).log)
  {
    RunKeeps(mode, t0, steps);
    hide Run, Replay;
  }

  /** What every caller that is done was given: the token that was stored and fresh when it looked or when
      its call checked again; the token that the fetch of its call brought; or an error, and then that
      fetch was refused. The store or the end of the fetch it rests on came after the caller asked, unless
      it joined a call that had its result already. */
  lemma ResultsExplained(mode: Mode, t0: int, steps: seq<Step>, id: nat)
    requires var s := Run(mode, t0, steps); id in s.callers && s.callers[id].Done?
    ensures var s, c := Run(mode, t0, steps), Run(mode, t0, steps).callers[id];
            && (!c.late ==> c.asked <= c.basis.at)
            && match c.basis
               case Found(i, time) =>
                 && i <= |s.log| && c.key in Replay(s.log[..i])
                 && var e := Replay(s.log[..i])[c.key];
                    && c.result == Some(e.token)
                    && (mode == MultiKey ==> e.expiry - time >= 5 * MINUTE)
                    && (mode == Legacy ==> e.token != "" && e.expiry - time > 30 * SECOND)
               case Ended(i) =>
                 && i < |s.log| && s.log[i].key == c.key
                 && (s.log[i].Stored? || s.log[i].Refused?)
                 && (s.log[i].Stored? ==> c.result == Some(s.log[i].e.token))
                 && (s.log[i].Refused? ==> c.result == None)
  {
    RunKeeps(mode, t0, steps);
    hide Run, Replay;
  }

  /** Every token handed to a caller came from a fetch for that caller's key. */
  lemma TokensGenuine(mode: Mode, t0: int, steps: seq<Step>, id: nat)
    requires var s := Run(mode, t0, steps);
             id in s.callers && s.callers[id].Done? && s.callers[id].result.Some?
    ensures var s := Run(mode, t0, steps); FetchedFor(s.log, s.callers[id].key, s.callers[id].result.value)
  {
    RunKeeps(mode, t0, steps);
    hide Run;
    var s := Run(mode, t0, steps);
    var c := s.callers[id];
    assert CallerInv(mode, s.flights, s.log, id, c);
    if c.basis.Found? { ReplayFetched(s.log, c.basis.at, c.key); }
  }

  lemma {:induction false} ReplayFetched(log: seq<Event>, i: nat, key: string)
    requires i <= |log| && key in Replay(log[..i])
    ensures FetchedFor(log, key, Replay(log[..i])[key].token)
    decreases i
  {
    assert log[..i][..i - 1] == log[..i - 1];
    if log[i - 1].Stored? && log[i - 1].key == key {
    } else {
      ReplayFetched(log, i - 1, key);
    }
  }

  /** A caller that looks while a fresh token is stored has it at once, and no call is made for it. */
  lemma FreshIsServed(mode: Mode, s: State, id: nat)
    requires id in s.callers && s.callers[id].Asking? && s.callers[id].key in s.store
    requires var e := s.store[s.callers[id].key];
             match mode
             case MultiKey => s.now + 5 * MINUTE <= e.expiry
             case Legacy => e.token != "" && s.now + 30 * SECOND < e.expiry
    ensures var s', e := Do(mode, s, Look(id)), s.store[s.callers[id].key];
            && id in s'.callers && s'.callers[id].Done? && s'.callers[id].result == Some(e.token)
            && s'.store == s.store && s'.flights == s.flights && s'.log == s.log
  {
  }

  /** A deleted token is gone, and only that one. */
  lemma DeletedIsGone(mode: Mode, s: State, key: string)
    ensures Do(mode, s, Delete(key)).store == s.store - {key}
  {
  }

  /** Everything ever stored is what a fetch of that key answered. */
  lemma {:induction false} StoredWasAnswered(mode: Mode, t0: int, steps: seq<Step>, key: string, e: Entry)
    requires var s := Run(mode, t0, steps); Stored(key, e) in s.log || At(s, key, Storing(e))
    ensures Answer(key, Some(e)) in steps
  {
    if steps != [] {
      hide Run, Do;
      var rest, a := steps[..|steps| - 1], steps[|steps| - 1];
      LastRun(mode, t0, steps);
      var s := Run(mode, t0, rest);
      StepAnswers(mode, s, a, key, e);
      if Stored(key, e) in s.log || At(s, key, Storing(e)) { StoredWasAnswered(mode, t0, rest, key, e); }
    }
  }

  lemma LastRun(mode: Mode, t0: int, steps: seq<Step>)
    requires steps != []
    ensures Run(mode, t0, steps) == Do(mode, Run(mode, t0, steps[..|steps| - 1]), steps[|steps| - 1])
  {
    hide Do;
  }

  lemma StepAnswers(mode: Mode, s: State, a: Step, key: string, e: Entry)
    requires Stored(key, e) in Do(mode, s, a).log || At(Do(mode, s, a), key, Storing(e))
    ensures Stored(key, e) in s.log || At(s, key, Storing(e)) || a == Answer(key, Some(e))
  {
    hide Cached;
  }

  /** Whoever waits can be served: its call is running, and goes on to its end whatever the fetch answers. */
  lemma WaitingEnds(mode: Mode, t0: int, steps: seq<Step>, id: nat, answer: Option<Entry>) returns (more: seq<Step>)
    requires var s := Run(mode, t0, steps); id in s.callers && s.callers[id].Waiting?
    ensures var s := Run(mode, t0, steps + more); id in s.callers && s.callers[id].Done?
  {
    RunKeeps(mode, t0, steps);
    hide Run;
    var s := Run(mode, t0, steps);
    var key := s.callers[id].key;
    assert CallerInv(mode, s.flights, s.log, id, s.callers[id]);
    more := Ending(mode, s, id, key, answer);
    RunAll(mode, t0, steps, more);
  }

  function DoAll(mode: Mode, s: State, more: seq<Step>): State
    decreases |more|
  {
    if more == [] then s else DoAll(mode, Do(mode, s, more[0]), more[1..])
  }

  lemma {:induction false} RunAll(mode: Mode, t0: int, steps: seq<Step>, more: seq<Step>)
    ensures Run(mode, t0, steps + more) == DoAll(mode, Run(mode, t0, steps), more)
    decreases |more|
  {
    hide Run, Do;
    if more == [] {
      assert steps + more == steps;
    } else {
      var next := steps + [more[0]];
      assert steps + more == next + more[1..];
      RunAll(mode, t0, next, more[1..]);
      LastRun(mode, t0, next);
      assert next[..|next| - 1] == steps;
    }
  }

  lemma Ending(mode: Mode, s: State, id: nat, key: string, answer: Option<Entry>) returns (more: seq<Step>)
    requires id in s.callers && s.callers[id].Waiting? && key in s.flights && id in s.flights[key].members
    ensures var s' := DoAll(mode, s, more); id in s'.callers && s'.callers[id].Done?
    decreases match s.flights[key].stage case Checking => 3 case Fetching => 2 case Storing(_) => 1 case Delivering(_, _) => 0
  {
    var a := match s.flights[key].stage
      case Checking => Recheck(key)
      case Fetching => Answer(key, answer)
      case Storing(_) => Save(key)
      case Delivering(_, _) => Deliver(key);
    var s1 := Do(mode, s, a);
    if a.Deliver? {
      more := [a];
      assert more[1..] == [];
      assert DoAll(mode, s, more) == DoAll(mode, s1, []);
    } else {
      var rest := Ending(mode, s1, id, key, answer);
      more := [a] + rest;
      assert more[1..] == rest;
    }
  }


  lemma Then(mode: Mode, t0: int, steps: seq<Step>, a: Step)
    ensures Run(mode, t0, steps + [a]) == Do(mode, Run(mode, t0, steps), a)
  {
    hide Run, Do;
    LastRun(mode, t0, steps + [a]);
    assert (steps + [a])[..|steps + [a]| - 1] == steps;
  }

  /** Caller `id` asks for a key that is not stored and joins its call. */
  lemma Arrive(mode: Mode, steps: seq<Step>, s: State, id: nat, key: string) returns (steps': seq<Step>, s': State)
    requires s == Run(mode, 0, steps) && id !in s.callers && key !in s.store
    ensures s' == Run(mode, 0, steps')
    ensures var flight := if key in s.flights then s.flights[key] else Flight(Checking, {});
            s' == s.(callers := s.callers[id := Waiting(key, |s.log|, flight.stage.Delivering?)],
                     flights := s.flights[key := flight.(members := flight.members + {id})])
  {
    hide Run;
    steps', s' := Take(mode, steps, s, Ask(id, key));
    steps', s' := Take(mode, steps', s', Look(id));
    assert s'.callers == s.callers[id := Joining(key, |s.log|)];
    steps', s' := Take(mode, steps', s', Join(id));
    assert s.callers[id := Joining(key, |s.log|)][id := s'.callers[id]] == s.callers[id := s'.callers[id]];
    assert {} + {id} == {id};
  }

  /** A caller that joins between the refusal of a fetch and its delivery is given an error though nothing
      was refused since it asked. */
  lemma LateCallerRefused(mode: Mode) returns (steps: seq<Step>)
    ensures var s := Run(mode, 0, steps);
            && 1 in s.callers && s.callers[1].Done? && s.callers[1].late && s.callers[1].result == None
            && |s.log| == s.callers[1].asked
  {
    var s := Run(mode, 0, []);
    assert s == Init(0);
    hide Run;
    steps, s := Arrive(mode, [], s, 0, "k");
    hide Do;
    steps, s := Refuse(mode, steps, s, "k");
    steps, s := Arrive(mode, steps, s, 1, "k");
    steps, s := Conclude(mode, steps, s, "k");
  }

  /** The fetch of a key that is not stored is refused. */
  lemma Refuse(mode: Mode, steps: seq<Step>, s: State, key: string) returns (steps': seq<Step>, s': State)
    requires s == Run(mode, 0, steps) && At(s, key, Checking) && key !in s.store
    ensures s' == Run(mode, 0, steps') && s'.callers == s.callers && s'.store == s.store
    ensures key in s'.flights && s'.flights[key].stage.Delivering? && s'.flights[key].stage.result == None
  {
    hide Run;
    steps', s' := Take(mode, steps, s, Recheck(key));
    assert At(s', key, Fetching);
    steps', s' := Take(mode, steps', s', Answer(key, None));
  }

  lemma Conclude(mode: Mode, steps: seq<Step>, s: State, key: string) returns (steps': seq<Step>, s': State)
    requires s == Run(mode, 0, steps) && key in s.flights && s.flights[key].stage.Delivering?
    ensures s' == Run(mode, 0, steps') && s'.log == s.log
    ensures forall id :: id in s.flights[key].members && id in s.callers ==>
              id in s'.callers && s'.callers[id] == Served(s.callers[id], s.flights[key].stage)
  {
    hide Run;
    steps', s' := Take(mode, steps, s, Deliver(key));
  }

  lemma Take(mode: Mode, steps: seq<Step>, s: State, a: Step) returns (steps': seq<Step>, s': State)
    requires s == Run(mode, 0, steps)
    ensures s' == Run(mode, 0, steps') && s' == Do(mode, s, a)
  {
    hide Run, Do;
    Then(mode, 0, steps, a);
    steps', s' := steps + [a], Do(mode, s, a);
  }
}

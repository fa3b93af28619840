/** DNS service discovery: a TTL cache behind single-flight lookups.

    Each stretch of `resolve` without an await is one step: the fast path with leader election, the
    leader's store-and-remove, and a waiter's wake-up with its read of the cache. */
module Discovery {
  import opened ByteStrings

  type Name = Str
  type Endpoints = seq<nat>
  type Time = nat
  type SemId = nat
  type CallerId = nat

  /** The result of a lookup: endpoints, or a failure. */
  type Outcome = Option<Endpoints>

  datatype Entry = Entry(outcome: Outcome, expires: Time)

  /** The shared maps; `held` are the semaphores whose one permit a leader holds. */
  datatype Store = Store(cache: map<Name, Entry>, inFlight: map<Name, SemId>, held: set<SemId>, nextSem: SemId)

  datatype Begun = Hit(endpoints: Endpoints) | Lead(sem: SemId) | Wait(sem: SemId)

  // ----------------------------------------------------------- atomic sections

  /** The fast path: a success that has not expired. */
  function Fresh(s: Store, name: Name, now: Time): Option<Endpoints> {
    if name in s.cache && now < s.cache[name].expires then s.cache[name].outcome else None
  }

  function Elected(s: Store, name: Name): SemId {
    if name in s.inFlight then s.inFlight[name] else s.nextSem
  }

  function Begin(s: Store, name: Name, now: Time): (Store, Begun) {
    if Fresh(s, name, now).Some? then (s, Hit(Fresh(s, name, now).value))
    else
      var sem := Elected(s, name);
      var s1 := if name in s.inFlight then s else s.(inFlight := s.inFlight[name := sem], nextSem := s.nextSem + 1);
      if sem in s.held then (s1, Wait(sem)) else (s1.(held := s1.held + {sem}), Lead(sem))
  }

  /** The leader stores the outcome, leaves `in_flight` and releases its permit. */
  function Finish(s: Store, name: Name, sem: SemId, outcome: Outcome, expires: Time): Store {
    s.(cache := s.cache[name := Entry(outcome, expires)], inFlight := s.inFlight - {name}, held := s.held - {sem})
  }

  /** What a woken waiter reads. */
  function Answer(s: Store, name: Name): Outcome {
    if name in s.cache then s.cache[name].outcome else None
  }

  // -------------------------------------------------------------------- class

  class ServiceDiscovery {
    const ttl: Time
    var cache: map<Name, Entry>
    var inFlight: map<Name, SemId>
    var held: set<SemId>
    var nextSem: SemId

    ghost function Contents(): Store
      reads this
    {
      Store(cache, inFlight, held, nextSem)
    }

    constructor (ttl: Time)
      ensures this.ttl == ttl && Contents() == Store(map[], map[], {}, 0)
    {
      this.ttl := ttl;
      cache, inFlight, held, nextSem := map[], map[], {}, 0;
    }

    /** `resolve` up to its first await. */
    method Resolve(name: Name, now: Time) returns (r: Begun)
      modifies this
      ensures (Contents(), r) == Begin(old(Contents()), name, now)
    {
      if name in cache {
        var entry := cache[name];
        if !(entry.expires <= now) {
          if entry.outcome.Some? {
            return Hit(entry.outcome.value);
          }
        }
      }
      if name !in inFlight {
        inFlight := inFlight[name := nextSem];
        nextSem := nextSem + 1;
      }
      var sem := inFlight[name];
      if sem !in held {
        held := held + {sem};
        return Lead(sem);
      }
      r := Wait(sem);
    }

    /** The leader's section behind the lookup. */
    method Complete(name: Name, sem: SemId, outcome: Outcome, now: Time)
      modifies this
      ensures Contents() == Finish(old(Contents()), name, sem, outcome, now + ttl)
    {
      cache := cache[name := Entry(outcome, now + ttl)];
      inFlight := inFlight - {name};
      held := held - {sem};
    }

    /** The waiter's section behind its wake-up. */
    method ReadBack(name: Name) returns (r: Outcome)
      ensures r == Answer(Contents(), name)
    {
      r := None;
      if name in cache {
        r := cache[name].outcome;
      }
    }

    /** `clear_cache`. */
    method ClearCache()
      modifies this
      ensures Contents() == old(Contents()).(cache := map[])
    {
      cache := map[];
    }
  }

  // ------------------------------------------------------------------- system

  /** A call of `resolve`; `since` is the number of lookups finished when it began to wait. */
  datatype Caller =
    | Looking(name: Name, sem: SemId)
    | Waiting(name: Name, sem: SemId, since: nat)
    | Done(name: Name, result: Outcome)

  datatype Lookup = Lookup(name: Name, outcome: Outcome, at: Time)

  datatype State = State(
    store: Store,
    now: Time,
    callers: map<CallerId, Caller>,
    nextCaller: CallerId,
    // history: lookups in order of completion, the index of each name's last one, the name each
    // semaphore was made for and its last leader, the semaphores a leader was cancelled on, and
    // whether the cache was ever cleared
    finished: seq<Lookup>,
    last: map<Name, nat>,
    named: map<SemId, Name>,
    leader: map<SemId, CallerId>,
    abandoned: set<SemId>,
    cleared: bool)

  datatype Action =
    | Call(name: Name)
    | Queue(name: Name)
    | Found(caller: CallerId, outcome: Outcome)
    | Wake(caller: CallerId)
    | Cancel(caller: CallerId)
    | Clear
    | Tick(time: nat)

  ghost predicate Init(s: State) {
    && s.store == Store(map[], map[], {}, 0) && s.callers == map[]
    && s.finished == [] && s.last == map[] && s.named == map[] && s.leader == map[]
    && s.abandoned == {} && !s.cleared
  }

  function CallerOf(s: State, name: Name, b: Begun): Caller {
    match b
    case Hit(ep) => Done(name, Some(ep))
    case Lead(sem) => Looking(name, sem)
    case Wait(sem) => Waiting(name, sem, |s.finished|)
  }

  function Called(s: State, name: Name): State {
    var (store, b) := Begin(s.store, name, s.now);
    s.(store := store,
       callers := s.callers[s.nextCaller := CallerOf(s, name, b)],
       nextCaller := s.nextCaller + 1,
       named := if store.nextSem > s.store.nextSem then s.named[s.store.nextSem := name] else s.named,
       leader := if b.Lead? then s.leader[b.sem := s.nextCaller] else s.leader)
  }

  /** Somebody waits for the semaphore. */
  ghost predicate Queued(s: State, sem: SemId) {
    exists y | y in s.callers :: s.callers[y].Waiting? && s.callers[y].sem == sem
  }

  /** `Queue` is a call that meets a semaphore without a leader but with waiters, to whom a fair
      semaphore hands the permit first: the caller joins them. */
  ghost predicate Next(ttl: Time, s: State, action: Action, s': State) {
    match action
    case Call(name) => s' == Called(s, name)
    case Queue(name) =>
      && Fresh(s.store, name, s.now).None? && name in s.store.inFlight
      && s.store.inFlight[name] !in s.store.held && Queued(s, s.store.inFlight[name])
      && s' == s.(callers := s.callers[s.nextCaller := Waiting(name, s.store.inFlight[name], |s.finished|)],
                  nextCaller := s.nextCaller + 1)
    case Found(x, outcome) =>
      && x in s.callers && s.callers[x].Looking?
      && var n, sem := s.callers[x].name, s.callers[x].sem;
      && s' == s.(store := Finish(s.store, n, sem, outcome, s.now + ttl),
                  callers := s.callers[x := Done(n, outcome)],
                  finished := s.finished + [Lookup(n, outcome, s.now)],
                  last := s.last[n := |s.finished|])
    case Wake(x) =>
      && x in s.callers && s.callers[x].Waiting? && s.callers[x].sem !in s.store.held
      && s' == s.(callers := s.callers[x := Done(s.callers[x].name, Answer(s.store, s.callers[x].name))])
    case Cancel(x) =>
      && x in s.callers && !s.callers[x].Done?
      && s' == if s.callers[x].Looking? then
                 s.(store := s.store.(held := s.store.held - {s.callers[x].sem}), callers := s.callers - {x},
                    abandoned := s.abandoned + {s.callers[x].sem})
               else s.(callers := s.callers - {x})
    case Clear => s' == s.(store := s.store.(cache := map[]), cleared := true)
    case Tick(d) => s' == s.(now := s.now + d)
  }

  // --------------------------------------------------------------- invariants

  /** Lookup `i` is the last finished one of `name`. */
  ghost predicate IsLast(finished: seq<Lookup>, name: Name, i: nat) {
    && i < |finished| && finished[i].name == name
    && forall j | i < j < |finished| :: finished[j].name != name
  }

  ghost predicate LookupsOk(s: State) {
    && (forall n | n in s.last :: IsLast(s.finished, n, s.last[n]))
    && (forall i | 0 <= i < |s.finished| :: s.finished[i].name in s.last && s.finished[i].at <= s.now)
  }

  /** A semaphore in flight was made for that name, and has its leader unless one was cancelled. */
  ghost predicate FlightOk(s: State, n: Name)
    requires n in s.store.inFlight
  {
    var sem := s.store.inFlight[n];
    && sem in s.named && s.named[sem] == n
    && (sem in s.store.held || sem in s.abandoned)
  }

  /** A held permit is its leader's, who is looking the semaphore's name up. */
  ghost predicate PermitOk(s: State, sem: SemId) {
    && sem in s.named && sem in s.leader && s.leader[sem] in s.callers
    && s.callers[s.leader[sem]] == Looking(s.named[sem], sem)
  }

  ghost predicate CallerOk(s: State, x: CallerId)
    requires x in s.callers
  {
    var k := s.callers[x];
    && x < s.nextCaller
    && (!k.Done? ==> k.sem in s.named && s.named[k.sem] == k.name)
    && (k.Looking? ==>
          && k.sem in s.store.held && k.sem in s.leader && s.leader[k.sem] == x
          && k.name in s.store.inFlight && s.store.inFlight[k.name] == k.sem)
  }

  ghost predicate SemsOk(s: State) {
    && (forall sem | sem in s.named :: sem < s.store.nextSem)
    && (forall n | n in s.store.inFlight :: FlightOk(s, n))
    && (forall sem | sem in s.store.held :: PermitOk(s, sem))
    && (forall x | x in s.callers :: CallerOk(s, x))
  }

  /** A lookup of `name` finished at or behind position `since`. */
  ghost predicate FinishedSince(s: State, name: Name, since: nat) {
    name in s.last && since <= s.last[name]
  }

  /** The semaphore a caller waits for is still the one its name is in flight under. */
  predicate StillInFlight(s: Store, name: Name, sem: SemId) {
    name in s.inFlight && s.inFlight[name] == sem
  }

  /** A lookup of a waiter's name has finished since it began to wait exactly when its semaphore has left
      `in_flight`. */
  ghost predicate WaiterOk(s: State, x: CallerId)
    requires x in s.callers
  {
    var k := s.callers[x];
    k.Waiting? ==>
      && k.since <= |s.finished|
      && (FinishedSince(s, k.name, k.since) <==> !StillInFlight(s.store, k.name, k.sem))
  }

  /** A cache entry is the last stored outcome of a lookup of that very name. */
  ghost predicate EntryOk(ttl: Time, s: State, n: Name)
    requires n in s.store.cache
  {
    && n in s.last && s.last[n] < |s.finished|
    && s.store.cache[n] == Entry(s.finished[s.last[n]].outcome, s.finished[s.last[n]].at + ttl)
  }

  ghost predicate CacheOk(ttl: Time, s: State) {
    && (forall n | n in s.store.cache :: EntryOk(ttl, s, n))
    && (!s.cleared ==> forall n | n in s.last :: n in s.store.cache)
  }

  /** Some lookup of `name` had this outcome. */
  ghost predicate Produced(finished: seq<Lookup>, name: Name, outcome: Outcome) {
    exists i | 0 <= i < |finished| :: finished[i].name == name && finished[i].outcome == outcome
  }

  /** A success returned was produced by a lookup of that name. */
  ghost predicate ResultOk(s: State, x: CallerId)
    requires x in s.callers
  {
    s.callers[x].Done? && s.callers[x].result.Some? ==> Produced(s.finished, s.callers[x].name, s.callers[x].result)
  }

  ghost predicate WaitersOk(s: State) {
    forall x | x in s.callers :: WaiterOk(s, x)
  }

  ghost predicate ResultsOk(s: State) {
    forall x | x in s.callers :: ResultOk(s, x)
  }

  ghost predicate Inv(ttl: Time, s: State) {
    SemsOk(s) && LookupsOk(s) && CacheOk(ttl, s) && WaitersOk(s) && ResultsOk(s)
  }

  lemma InitInv(ttl: Time, s: State)
    requires Init(s)
    ensures Inv(ttl, s)
  {
  }
}

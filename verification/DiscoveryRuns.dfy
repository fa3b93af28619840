/** What holds along every run of service discovery. */
module DiscoveryRuns {
  import opened ByteStrings
  import opened Discovery

  // ------------------------------------------------------- semaphores are kept

  lemma NewSemIsFree(s: State)
    requires SemsOk(s)
    ensures s.store.nextSem !in s.store.held && s.store.nextSem !in s.named
  {
  }

  lemma NewCallerIsNew(s: State)
    requires SemsOk(s)
    ensures s.nextCaller !in s.callers
  {
  }

  lemma CallSems(s: State, name: Name)
    requires SemsOk(s)
    ensures SemsOk(Called(s, name))
  {
    NewSemIsFree(s);
    NewCallerIsNew(s);
    var s' := Called(s, name);
    assert name in s.store.inFlight ==> FlightOk(s, name);
    forall n | n in s'.store.inFlight
      ensures FlightOk(s', n)
    {
      assert n in s.store.inFlight ==> FlightOk(s, n);
    }
    forall sem | sem in s'.store.held
      ensures PermitOk(s', sem)
    {
      assert sem in s.store.held ==> PermitOk(s, sem);
    }
    forall x | x in s'.callers
      ensures CallerOk(s', x)
    {
      assert x in s.callers ==> CallerOk(s, x);
    }
  }

  lemma FoundSems(ttl: Time, s: State, x: CallerId, outcome: Outcome, s': State)
    requires SemsOk(s) && Next(ttl, s, Found(x, outcome), s')
    ensures SemsOk(s')
  {
  }

  lemma QuietSems(ttl: Time, s: State, action: Action, s': State)
    requires SemsOk(s) && Next(ttl, s, action, s') && (action.Wake? || action.Clear? || action.Tick?)
    ensures SemsOk(s')
  {
  }

  lemma QueueSems(ttl: Time, s: State, name: Name, s': State)
    requires SemsOk(s) && Next(ttl, s, Queue(name), s')
    ensures SemsOk(s')
  {
  }

  lemma CancelSems(ttl: Time, s: State, x: CallerId, s': State)
    requires SemsOk(s) && Next(ttl, s, Cancel(x), s')
    ensures SemsOk(s')
  {
  }

  // -------------------------------------------------- lookups and cache are kept

  lemma FoundLookups(ttl: Time, s: State, x: CallerId, outcome: Outcome, s': State)
    requires LookupsOk(s) && Next(ttl, s, Found(x, outcome), s')
    ensures LookupsOk(s')
  {
  }

  lemma FoundCache(ttl: Time, s: State, x: CallerId, outcome: Outcome, s': State)
    requires CacheOk(ttl, s) && Next(ttl, s, Found(x, outcome), s')
    ensures CacheOk(ttl, s')
  {
  }

  /** No other action touches the lookups, and none but clearing touches the cache. */
  lemma OtherFrame(ttl: Time, s: State, action: Action, s': State)
    requires Next(ttl, s, action, s') && !action.Found?
    ensures s'.finished == s.finished && s'.last == s.last && s.now <= s'.now
    ensures s'.store.cache == if action.Clear? then map[] else s.store.cache
    ensures s'.cleared == (s.cleared || action.Clear?)
  {
  }

  lemma OtherLookups(ttl: Time, s: State, action: Action, s': State)
    requires LookupsOk(s) && Next(ttl, s, action, s') && !action.Found?
    ensures LookupsOk(s')
  {
    OtherFrame(ttl, s, action, s');
  }

  lemma OtherCache(ttl: Time, s: State, action: Action, s': State)
    requires CacheOk(ttl, s) && Next(ttl, s, action, s') && !action.Found?
    ensures CacheOk(ttl, s')
  {
    OtherFrame(ttl, s, action, s');
    forall n | n in s'.store.cache
      ensures EntryOk(ttl, s', n)
    {
      assert EntryOk(ttl, s, n);
    }
  }

  // ------------------------------------------------- waiters and results are kept

  lemma FoundWaiters(ttl: Time, s: State, x: CallerId, outcome: Outcome, s': State)
    requires SemsOk(s) && LookupsOk(s) && WaitersOk(s) && Next(ttl, s, Found(x, outcome), s')
    ensures WaitersOk(s')
  {
  }

  /** A caller that begins to wait has missed nothing yet. */
  lemma NewWaiter(s: State, name: Name)
    requires LookupsOk(s)
    ensures !FinishedSince(s, name, |s.finished|)
  {
    if name in s.last {
      assert IsLast(s.finished, name, s.last[name]);
    }
  }

  lemma OtherWaiters(ttl: Time, s: State, action: Action, s': State)
    requires SemsOk(s) && LookupsOk(s) && WaitersOk(s) && Next(ttl, s, action, s') && !action.Found?
    ensures WaitersOk(s')
  {
    NewSemIsFree(s);
    if action.Call? || action.Queue? {
      NewWaiter(s, action.name);
    }
    forall y | y in s'.callers
      ensures WaiterOk(s', y)
    {
      assert y in s.callers ==> WaiterOk(s, y) && CallerOk(s, y);
    }
  }

  lemma ProducedMore(finished: seq<Lookup>, l: Lookup, name: Name, outcome: Outcome)
    requires Produced(finished, name, outcome) || (l.name == name && l.outcome == outcome)
    ensures Produced(finished + [l], name, outcome)
  {
    var more := finished + [l];
    if i :| 0 <= i < |finished| && finished[i].name == name && finished[i].outcome == outcome {
      assert more[i] == finished[i];
    } else {
      assert more[|finished|] == l;
    }
  }

  /** Whatever is read from the cache was produced by a lookup. */
  lemma CachedIsProduced(ttl: Time, s: State, name: Name)
    requires LookupsOk(s) && CacheOk(ttl, s) && name in s.store.cache
    ensures Produced(s.finished, name, s.store.cache[name].outcome)
  {
  }

  lemma NextResults(ttl: Time, s: State, action: Action, s': State)
    requires LookupsOk(s) && CacheOk(ttl, s) && ResultsOk(s) && Next(ttl, s, action, s')
    ensures ResultsOk(s')
  {
    forall y | y in s'.callers
      ensures ResultOk(s', y)
    {
      var k := s'.callers[y];
      if k.Done? && k.result.Some? {
        if action.Found? {
          var l := Lookup(s.callers[action.caller].name, action.outcome, s.now);
          assert y in s.callers && ResultOk(s, y);
          ProducedMore(s.finished, l, k.name, k.result);
        } else if y in s.callers && s.callers[y] == k {
          assert ResultOk(s, y);
        } else {
          assert k.name in s.store.cache && s.store.cache[k.name].outcome == k.result;
          CachedIsProduced(ttl, s, k.name);
        }
      }
    }
  }

  lemma NextInv(ttl: Time, s: State, action: Action, s': State)
    requires Inv(ttl, s) && Next(ttl, s, action, s')
    ensures Inv(ttl, s')
  {
    NextResults(ttl, s, action, s');
    if action.Found? {
      FoundSems(ttl, s, action.caller, action.outcome, s');
      FoundLookups(ttl, s, action.caller, action.outcome, s');
      FoundCache(ttl, s, action.caller, action.outcome, s');
      FoundWaiters(ttl, s, action.caller, action.outcome, s');
    } else {
      OtherLookups(ttl, s, action, s');
      OtherCache(ttl, s, action, s');
      OtherWaiters(ttl, s, action, s');
      match action
      case Call(name) => CallSems(s, name);
      case Queue(name) => QueueSems(ttl, s, name, s');
      case Cancel(x) => CancelSems(ttl, s, x, s');
      case _ => QuietSems(ttl, s, action, s');
    }
  }

  // --------------------------------------------------------------------- runs

  datatype History = History(states: seq<State>, actions: seq<Action>)

  ghost predicate StepAt(ttl: Time, h: History, i: nat) {
    && i < |h.actions| && i + 1 < |h.states|
    && Next(ttl, h.states[i], h.actions[i], h.states[i + 1])
  }

  ghost predicate IsRun(ttl: Time, h: History) {
    && |h.states| == |h.actions| + 1 && Init(h.states[0])
    && forall i | 0 <= i < |h.actions| :: StepAt(ttl, h, i)
  }

  lemma {:induction false} RunInv(ttl: Time, h: History, n: nat)
    requires IsRun(ttl, h) && n < |h.states|
    ensures Inv(ttl, h.states[n])
  {
    if n == 0 {
      InitInv(ttl, h.states[0]);
    } else {
      RunInv(ttl, h, n - 1);
      assert StepAt(ttl, h, n - 1);
      NextInv(ttl, h.states[n - 1], h.actions[n - 1], h.states[n]);
    }
  }

  /** Some caller is looking `name` up. */
  ghost predicate LookedUp(s: State, name: Name) {
    exists x | x in s.callers :: s.callers[x].Looking? && s.callers[x].name == name
  }

  /** Single flight, in every run, cancellation and clearing included: never two lookups of one name
      at once. */
  lemma SingleFlight(ttl: Time, h: History, n: nat, x: CallerId, y: CallerId)
    requires IsRun(ttl, h) && n < |h.states|
    requires var s := h.states[n];
             x in s.callers && y in s.callers && s.callers[x].Looking? && s.callers[y].Looking? &&
             s.callers[x].name == s.callers[y].name
    ensures x == y
  {
    RunInv(ttl, h, n);
    assert CallerOk(h.states[n], x) && CallerOk(h.states[n], y);
  }

  /** A name is being looked up exactly while it is in flight under a semaphore whose permit is held. */
  lemma LookedUpIff(ttl: Time, h: History, n: nat, name: Name)
    requires IsRun(ttl, h) && n < |h.states|
    ensures var s := h.states[n];
            LookedUp(s, name) <==> name in s.store.inFlight && s.store.inFlight[name] in s.store.held
  {
    RunInv(ttl, h, n);
    var s := h.states[n];
    if x :| x in s.callers && s.callers[x].Looking? && s.callers[x].name == name {
      assert CallerOk(s, x);
    }
    if name in s.store.inFlight && s.store.inFlight[name] in s.store.held {
      assert FlightOk(s, name) && PermitOk(s, s.store.inFlight[name]);
    }
  }

  lemma {:induction false} NothingAbandoned(ttl: Time, h: History, n: nat)
    requires IsRun(ttl, h) && n < |h.states| && forall i | 0 <= i < n :: !h.actions[i].Cancel?
    ensures h.states[n].abandoned == {}
  {
    if n > 0 {
      NothingAbandoned(ttl, h, n - 1);
      assert StepAt(ttl, h, n - 1);
    }
  }

  /** Without cancellation `in_flight` holds a name exactly while its lookup runs. */
  lemma InFlightWhileLookedUp(ttl: Time, h: History, n: nat, name: Name)
    requires IsRun(ttl, h) && n < |h.states| && forall i | 0 <= i < n :: !h.actions[i].Cancel?
    ensures LookedUp(h.states[n], name) <==> name in h.states[n].store.inFlight
  {
    LookedUpIff(ttl, h, n, name);
    NothingAbandoned(ttl, h, n);
    RunInv(ttl, h, n);
    assert name in h.states[n].store.inFlight ==> FlightOk(h.states[n], name);
  }

  ghost predicate Enabled(ttl: Time, s: State, action: Action) {
    exists s' :: Next(ttl, s, action, s')
  }

  /** No waiter is forgotten: it can wake, or the lookup it waits for is still running and can finish, with
      any outcome, whereupon the waiter can wake. */
  lemma WaitersWake(ttl: Time, h: History, n: nat, x: CallerId, outcome: Outcome)
    requires IsRun(ttl, h) && n < |h.states| && x in h.states[n].callers && h.states[n].callers[x].Waiting?
    ensures var s := h.states[n];
            var k := s.callers[x];
            || Enabled(ttl, s, Wake(x))
            || exists y, s' | y in s.callers && s.callers[y] == Looking(k.name, k.sem) ::
                 Next(ttl, s, Found(y, outcome), s') && Enabled(ttl, s', Wake(x))
  {
    RunInv(ttl, h, n);
    var s := h.states[n];
    var k := s.callers[x];
    assert CallerOk(s, x);
    if k.sem in s.store.held {
      assert PermitOk(s, k.sem);
      var y := s.leader[k.sem];
      var s' := s.(store := Finish(s.store, k.name, k.sem, outcome, s.now + ttl),
                   callers := s.callers[y := Done(k.name, outcome)],
                   finished := s.finished + [Lookup(k.name, outcome, s.now)],
                   last := s.last[k.name := |s.finished|]);
      assert Next(ttl, s, Found(y, outcome), s');
      CanWake(ttl, s', x);
    } else {
      CanWake(ttl, s, x);
    }
  }

  lemma CanWake(ttl: Time, s: State, x: CallerId)
    requires x in s.callers && s.callers[x].Waiting? && s.callers[x].sem !in s.store.held
    ensures Enabled(ttl, s, Wake(x))
  {
    var s' := s.(callers := s.callers[x := Done(s.callers[x].name, Answer(s.store, s.callers[x].name))]);
    assert Next(ttl, s, Wake(x), s');
  }

  /** Some lookup of `name` finished at or behind position `since`. */
  ghost predicate AnyFinishedSince(finished: seq<Lookup>, name: Name, since: nat) {
    exists i | since <= i < |finished| :: finished[i].name == name
  }

  lemma FinishedSinceIff(s: State, name: Name, since: nat)
    requires LookupsOk(s)
    ensures FinishedSince(s, name, since) <==> AnyFinishedSince(s.finished, name, since)
  {
    if name in s.last {
      assert IsLast(s.finished, name, s.last[name]);
    }
  }

  /** What a waking waiter gets.  A lookup of its name finished while it waited exactly when its semaphore
      has left `in_flight`; then it returns the outcome of the last such lookup, or fails because the cache
      was cleared.  Otherwise its leader was cancelled and no later one has finished, and it returns what
      an earlier lookup had stored, or fails. */
  lemma WaiterOutcome(ttl: Time, h: History, n: nat, x: CallerId)
    requires IsRun(ttl, h) && n < |h.actions| && h.actions[n] == Wake(x)
    ensures var s, s' := h.states[n], h.states[n + 1];
            && x in s.callers && s.callers[x].Waiting? && x in s'.callers && s'.callers[x].Done?
            && var k, result := s.callers[x], s'.callers[x].result;
            && (AnyFinishedSince(s.finished, k.name, k.since) <==> !StillInFlight(s.store, k.name, k.sem))
            && (if k.name in s.store.cache then
                  exists i | 0 <= i < |s.finished| ::
                    && IsLast(s.finished, k.name, i) && result == s.finished[i].outcome
                    && (i >= k.since <==> !StillInFlight(s.store, k.name, k.sem))
                else
                  result == None && (!StillInFlight(s.store, k.name, k.sem) ==> s.cleared))
            && (StillInFlight(s.store, k.name, k.sem) ==> k.sem in s.abandoned)
  {
    RunInv(ttl, h, n);
    assert StepAt(ttl, h, n);
    var s := h.states[n];
    assert WaiterOk(s, x);
    var k := s.callers[x];
    FinishedSinceIff(s, k.name, k.since);
    if k.name in s.store.cache {
      assert EntryOk(ttl, s, k.name) && IsLast(s.finished, k.name, s.last[k.name]);
    }
    if StillInFlight(s.store, k.name, k.sem) {
      assert FlightOk(s, k.name);
    }
  }

  /** The name is cached and its last finished lookup was a success younger than the TTL. */
  ghost predicate FreshSuccess(ttl: Time, s: State, name: Name, endpoints: Endpoints) {
    && name in s.store.cache
    && exists i | 0 <= i < |s.finished| ::
         IsLast(s.finished, name, i) && s.finished[i].outcome == Some(endpoints) &&
         s.finished[i].at <= s.now < s.finished[i].at + ttl
  }

  lemma LastIsUnique(finished: seq<Lookup>, name: Name, i: nat, j: nat)
    requires IsLast(finished, name, i) && IsLast(finished, name, j)
    ensures i == j
  {
  }

  /** The fast path serves exactly the fresh successes: a stored failure, an expired success and a name
      that is not cached are never served there, and a fresh success always is. */
  lemma FastPathIff(ttl: Time, h: History, n: nat, name: Name, endpoints: Endpoints)
    requires IsRun(ttl, h) && n < |h.states|
    ensures Begin(h.states[n].store, name, h.states[n].now).1 == Hit(endpoints) <==>
            FreshSuccess(ttl, h.states[n], name, endpoints)
  {
    RunInv(ttl, h, n);
    var s := h.states[n];
    if name in s.store.cache {
      assert EntryOk(ttl, s, name) && IsLast(s.finished, name, s.last[name]);
      forall i: nat | IsLast(s.finished, name, i)
        ensures i == s.last[name]
      {
        LastIsUnique(s.finished, name, i, s.last[name]);
      }
    }
  }

  /** Behind the fast path a call leads exactly when nobody is looking its name up, and else waits for
      the lookup under way. */
  lemma LeadsIff(ttl: Time, h: History, n: nat, name: Name)
    requires IsRun(ttl, h) && n < |h.states|
    ensures var s := h.states[n];
            var b := Begin(s.store, name, s.now).1;
            && (b.Lead? <==> !b.Hit? && !LookedUp(s, name))
            && (b.Wait? <==> !b.Hit? && LookedUp(s, name))
            && (b.Wait? ==> exists y | y in s.callers :: s.callers[y] == Looking(name, b.sem))
  {
    LookedUpIff(ttl, h, n, name);
    RunInv(ttl, h, n);
    var s := h.states[n];
    NewSemIsFree(s);
    var b := Begin(s.store, name, s.now).1;
    if b.Wait? {
      assert FlightOk(s, name) && PermitOk(s, b.sem);
    }
  }

  /** A leader returns what its lookup found, and stores just that. */
  lemma LeaderOutcome(ttl: Time, h: History, n: nat, x: CallerId, outcome: Outcome)
    requires IsRun(ttl, h) && n < |h.actions| && h.actions[n] == Found(x, outcome)
    ensures var s, s' := h.states[n], h.states[n + 1];
            && x in s.callers && s.callers[x].Looking?
            && var name := s.callers[x].name;
            && x in s'.callers && s'.callers[x] == Done(name, outcome)
            && s'.finished == s.finished + [Lookup(name, outcome, s.now)]
            && name in s'.store.cache && s'.store.cache[name] == Entry(outcome, s.now + ttl)
            && !LookedUp(s', name)
  {
    assert StepAt(ttl, h, n);
    LookedUpIff(ttl, h, n + 1, h.states[n].callers[x].name);
  }

  // --------------------------------------------------------------- why a call fails

  /** A caller that failed was told so by a lookup of its name. */
  ghost predicate FailureOk(s: State, x: CallerId) {
    x in s.callers && s.callers[x].Done? && s.callers[x].result == None ==>
      Produced(s.finished, s.callers[x].name, None)
  }

  ghost predicate Undisturbed(s: State) {
    s.abandoned == {} && !s.cleared
  }

  lemma WakeFailure(ttl: Time, s: State, x: CallerId, s': State)
    requires Inv(ttl, s) && Next(ttl, s, Wake(x), s') && Undisturbed(s)
    ensures FailureOk(s', x)
  {
    var k := s.callers[x];
    assert WaiterOk(s, x) && CallerOk(s, x);
    assert k.name in s.store.inFlight ==> FlightOk(s, k.name);
    CachedIsProduced(ttl, s, k.name);
  }

  lemma FailureStep(ttl: Time, s: State, action: Action, s': State, x: CallerId)
    requires Inv(ttl, s) && Next(ttl, s, action, s') && FailureOk(s, x) && Undisturbed(s')
    ensures FailureOk(s', x)
  {
    if action == Wake(x) {
      WakeFailure(ttl, s, x, s');
    } else if action.Found? {
      var l := Lookup(s.callers[action.caller].name, action.outcome, s.now);
      if x == action.caller || (x in s.callers && s.callers[x].Done? && s.callers[x].result == None) {
        if s'.callers[x].result == None {
          ProducedMore(s.finished, l, s.callers[x].name, None);
        }
      }
    }
  }

  /** Without cancelled leaders and cleared caches a call fails only because a lookup of its name did. */
  lemma {:induction false} FailureHasCause(ttl: Time, h: History, n: nat, x: CallerId)
    requires IsRun(ttl, h) && n < |h.states| && Undisturbed(h.states[n])
    ensures FailureOk(h.states[n], x)
  {
    if n > 0 {
      assert StepAt(ttl, h, n - 1);
      FailureHasCause(ttl, h, n - 1, x);
      RunInv(ttl, h, n - 1);
      FailureStep(ttl, h.states[n - 1], h.actions[n - 1], h.states[n], x);
    }
  }

  /** The cache agrees with the resolver: each entry is the last stored outcome of a lookup of that very
      name with its expiry at store time plus TTL, and every success ever returned came from a lookup of
      that name. */
  lemma CacheAgreesWithResolver(ttl: Time, h: History, n: nat)
    requires IsRun(ttl, h) && n < |h.states|
    ensures var s := h.states[n];
            && (forall name | name in s.store.cache ::
                  exists i | 0 <= i < |s.finished| ::
                    IsLast(s.finished, name, i) && s.store.cache[name] == Entry(s.finished[i].outcome, s.finished[i].at + ttl))
            && (forall x | x in s.callers && s.callers[x].Done? && s.callers[x].result.Some? ::
                  Produced(s.finished, s.callers[x].name, s.callers[x].result))
  {
    RunInv(ttl, h, n);
    var s := h.states[n];
    forall name | name in s.store.cache
      ensures exists i | 0 <= i < |s.finished| ::
                IsLast(s.finished, name, i) && s.store.cache[name] == Entry(s.finished[i].outcome, s.finished[i].at + ttl)
    {
      assert EntryOk(ttl, s, name) && IsLast(s.finished, name, s.last[name]);
    }
    forall x | x in s.callers && s.callers[x].Done? && s.callers[x].result.Some?
      ensures Produced(s.finished, s.callers[x].name, s.callers[x].result)
    {
      assert ResultOk(s, x);
    }
  }

  /** The states of the run below: empty, led, waited for, abandoned, given up. */
  function Led(name: Name, callers: map<CallerId, Caller>, next: CallerId, held: set<SemId>, abandoned: set<SemId>): State {
    State(Store(map[], map[name := 0], held, 1), 0, callers, next, [], map[], map[0 := name], map[0 := 0], abandoned, false)
  }

  lemma FirstCallLeads(ttl: Time, name: Name)
    ensures Next(ttl, State(Store(map[], map[], {}, 0), 0, map[], 0, [], map[], map[], map[], {}, false), Call(name),
                 Led(name, map[0 := Looking(name, 0)], 1, {0}, {}))
  {
  }

  lemma SecondCallWaits(ttl: Time, name: Name)
    ensures Next(ttl, Led(name, map[0 := Looking(name, 0)], 1, {0}, {}), Call(name),
                 Led(name, map[0 := Looking(name, 0), 1 := Waiting(name, 0, 0)], 2, {0}, {}))
  {
  }

  lemma LeaderIsCancelled(ttl: Time, name: Name)
    ensures Next(ttl, Led(name, map[0 := Looking(name, 0), 1 := Waiting(name, 0, 0)], 2, {0}, {}), Cancel(0),
                 Led(name, map[1 := Waiting(name, 0, 0)], 2, {}, {0}))
  {
  }

  lemma WaiterGivesUp(ttl: Time, name: Name)
    ensures Next(ttl, Led(name, map[1 := Waiting(name, 0, 0)], 2, {}, {0}), Wake(1),
                 Led(name, map[1 := Done(name, None)], 2, {}, {0}))
  {
  }

  /** Some run ends in `s`. */
  ghost predicate Reachable(ttl: Time, s: State) {
    exists h: History :: IsRun(ttl, h) && h.states[|h.actions|] == s
  }

  lemma ReachInit(ttl: Time, s: State)
    requires Init(s)
    ensures Reachable(ttl, s)
  {
    assert IsRun(ttl, History([s], []));
  }

  lemma ReachNext(ttl: Time, s: State, action: Action, s': State)
    requires Reachable(ttl, s) && Next(ttl, s, action, s')
    ensures Reachable(ttl, s')
  {
    var h: History :| IsRun(ttl, h) && h.states[|h.actions|] == s;
    var longer := History(h.states + [s'], h.actions + [action]);
    forall i | 0 <= i < |longer.actions|
      ensures StepAt(ttl, longer, i)
    {
      assert i < |h.actions| ==> StepAt(ttl, h, i);
    }
    assert IsRun(ttl, longer);
  }

  /** With a cancelled leader the waiters' promise fails: a run in which a waiter gives up with an error
      although no lookup of its name has finished and the cache was never cleared. */
  lemma CancelledLeaderFailsWaiter(ttl: Time, name: Name)
    ensures exists s ::
              && Reachable(ttl, s) && 1 in s.callers
              && s.callers[1] == Done(name, None) && s.finished == [] && !s.cleared
  {
    var s0 := State(Store(map[], map[], {}, 0), 0, map[], 0, [], map[], map[], map[], {}, false);
    var s1 := Led(name, map[0 := Looking(name, 0)], 1, {0}, {});
    var s2 := Led(name, map[0 := Looking(name, 0), 1 := Waiting(name, 0, 0)], 2, {0}, {});
    var s3 := Led(name, map[1 := Waiting(name, 0, 0)], 2, {}, {0});
    var s4 := Led(name, map[1 := Done(name, None)], 2, {}, {0});
    ReachInit(ttl, s0);
    FirstCallLeads(ttl, name);
    ReachNext(ttl, s0, Call(name), s1);
    SecondCallWaits(ttl, name);
    ReachNext(ttl, s1, Call(name), s2);
    LeaderIsCancelled(ttl, name);
    ReachNext(ttl, s2, Cancel(0), s3);
    WaiterGivesUp(ttl, name);
    ReachNext(ttl, s3, Wake(1), s4);
  }
}

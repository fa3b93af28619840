/** Leader election of service discovery with preemption between any two shared accesses: a caller may
    pause between cloning the semaphore of its name and trying to acquire it, and between its lookup, its
    removal of the name and its release.  Here single flight is not unconditional.  The cache is left out:
    a caller enters once it has found nothing fresh. */
module DiscoveryPreemption {
  type Name = nat
  type SemId = nat
  type CallerId = nat

  datatype Caller =
    | Cloned(name: Name, sem: SemId)
    | Looking(name: Name, sem: SemId)
    | Removed(name: Name, sem: SemId)
    | Waiting(name: Name, sem: SemId)
    | Done

  datatype State = State(
    callers: map<CallerId, Caller>,
    inFlight: map<Name, SemId>,
    held: set<SemId>,
    nextSem: SemId,
    // history: the name each semaphore was made for, and the last caller to acquire it
    named: map<SemId, Name>,
    leader: map<SemId, CallerId>)

  datatype Action =
    | Clone(caller: CallerId, name: Name)
    | TryAcquire(caller: CallerId)
    | StoreAndRemove(caller: CallerId)
    | Release(caller: CallerId)
    | Wake(caller: CallerId)

  predicate Init(s: State) {
    s == State(map[], map[], {}, 0, map[], map[])
  }

  function Put(s: State, x: CallerId, k: Caller): State {
    s.(callers := s.callers[x := k])
  }

  ghost predicate Next(s: State, action: Action, s': State) {
    var x := action.caller;
    if action.Clone? then
      && x !in s.callers
      && if action.name in s.inFlight then s' == Put(s, x, Cloned(action.name, s.inFlight[action.name]))
         else s' == Put(s, x, Cloned(action.name, s.nextSem)).(
                    inFlight := s.inFlight[action.name := s.nextSem], nextSem := s.nextSem + 1,
                    named := s.named[s.nextSem := action.name])
    else
      && x in s.callers
      && var k := s.callers[x];
      match action
      case TryAcquire(_) =>
        && k.Cloned?
        && s' == if k.sem in s.held then Put(s, x, Waiting(k.name, k.sem))
                 else Put(s, x, Looking(k.name, k.sem)).(held := s.held + {k.sem}, leader := s.leader[k.sem := x])
      case StoreAndRemove(_) => k.Looking? && s' == Put(s, x, Removed(k.name, k.sem)).(inFlight := s.inFlight - {k.name})
      case Release(_) => k.Removed? && s' == Put(s, x, Done).(held := s.held - {k.sem})
      case Wake(_) => k.Waiting? && k.sem !in s.held && s' == Put(s, x, Done)
      case Clone(_, _) => true
  }

  ghost predicate LooksUp(s: State, x: CallerId, name: Name) {
    x in s.callers && s.callers[x].Looking? && s.callers[x].name == name
  }

  /** Two callers look one name up at once. */
  ghost predicate Doubled(s: State, name: Name) {
    exists x, y | x != y :: LooksUp(s, x, name) && LooksUp(s, y, name)
  }

  // --------------------------------------------------------------- every run

  ghost predicate CallerOk(s: State, x: CallerId) {
    x in s.callers && !s.callers[x].Done? ==>
      var k := s.callers[x];
      && k.sem < s.nextSem && k.sem in s.named && s.named[k.sem] == k.name
      && (k.Looking? || k.Removed? ==> k.sem in s.held && k.sem in s.leader && s.leader[k.sem] == x)
  }

  /** A held permit is that of its one leader, which is still looking or has yet to release it. */
  ghost predicate PermitOk(s: State, t: SemId) {
    t in s.held ==>
      && t in s.leader && s.leader[t] in s.callers
      && var k := s.callers[s.leader[t]];
         (k.Looking? || k.Removed?) && k.sem == t
  }

  ghost predicate FlightOk(s: State, n: Name) {
    n in s.inFlight ==> s.inFlight[n] < s.nextSem && s.inFlight[n] in s.named && s.named[s.inFlight[n]] == n
  }

  ghost predicate Inv(s: State) {
    && (forall x :: CallerOk(s, x))
    && (forall t :: PermitOk(s, t))
    && (forall n :: FlightOk(s, n))
    && (forall t | t in s.named :: t < s.nextSem)
  }

  lemma CallerStep(s: State, action: Action, s': State, x: CallerId)
    requires Inv(s) && Next(s, action, s')
    ensures CallerOk(s', x)
  {
    assert CallerOk(s, x) && CallerOk(s, action.caller);
    assert action.Clone? ==> FlightOk(s, action.name);
  }

  lemma PermitStep(s: State, action: Action, s': State, t: SemId)
    requires Inv(s) && Next(s, action, s')
    ensures PermitOk(s', t)
  {
    assert PermitOk(s, t) && CallerOk(s, action.caller);
  }

  lemma FlightStep(s: State, action: Action, s': State, n: Name)
    requires Inv(s) && Next(s, action, s')
    ensures FlightOk(s', n)
  {
    assert FlightOk(s, n);
  }

  lemma NextInv(s: State, action: Action, s': State)
    requires Inv(s) && Next(s, action, s')
    ensures Inv(s')
  {
    forall x
      ensures CallerOk(s', x)
    {
      CallerStep(s, action, s', x);
    }
    forall t
      ensures PermitOk(s', t)
    {
      PermitStep(s, action, s', t);
    }
    forall n
      ensures FlightOk(s', n)
    {
      FlightStep(s, action, s', n);
    }
  }

  datatype History = History(states: seq<State>, actions: seq<Action>)

  ghost predicate StepAt(h: History, i: nat) {
    i < |h.actions| && i + 1 < |h.states| && Next(h.states[i], h.actions[i], h.states[i + 1])
  }

  ghost predicate IsRun(h: History) {
    && |h.states| == |h.actions| + 1 && Init(h.states[0])
    && forall i | 0 <= i < |h.actions| :: StepAt(h, i)
  }

  lemma {:induction false} RunInv(h: History, n: nat)
    requires IsRun(h) && n < |h.states|
    ensures Inv(h.states[n])
  {
    if n > 0 {
      RunInv(h, n - 1);
      assert StepAt(h, n - 1);
      NextInv(h.states[n - 1], h.actions[n - 1], h.states[n]);
    }
  }

  // --------------------------------------------------------------- when a lookup doubles

  /** Another semaphore of the name has a leader that is still looking. */
  ghost predicate LedElsewhere(s: State, name: Name, sem: SemId) {
    exists t | t in s.held && t != sem ::
      && t in s.named && s.named[t] == name
      && t in s.leader && s.leader[t] in s.callers && s.callers[s.leader[t]].Looking?
  }

  /** The action acquires a free semaphore of `name` while another one of it is led. */
  ghost predicate Doubles(s: State, action: Action, name: Name) {
    && action.TryAcquire? && action.caller in s.callers
    && var k := s.callers[action.caller];
       k.Cloned? && k.name == name && k.sem !in s.held && LedElsewhere(s, name, k.sem)
  }

  lemma LedElsewhereIff(s: State, name: Name, sem: SemId)
    requires Inv(s) && sem !in s.held
    ensures LedElsewhere(s, name, sem) <==> exists y :: LooksUp(s, y, name)
  {
    if y :| LooksUp(s, y, name) {
      assert CallerOk(s, y);
      assert s.callers[y].sem in s.held && s.leader[s.callers[y].sem] == y;
    }
    if t :| t in s.held && t != sem && t in s.named && s.named[t] == name
            && t in s.leader && s.leader[t] in s.callers && s.callers[s.leader[t]].Looking?
    {
      assert PermitOk(s, t) && CallerOk(s, s.leader[t]);
      assert LooksUp(s, s.leader[t], name);
    }
  }

  /** Nobody but a caller that acquires begins a lookup. */
  lemma LookersStep(s: State, action: Action, s': State, y: CallerId, name: Name)
    requires Next(s, action, s')
    ensures LooksUp(s', y, name) && !LooksUp(s, y, name) ==>
              && action == TryAcquire(y) && y in s.callers && s.callers[y].Cloned? && s.callers[y].name == name
              && s.callers[y].sem !in s.held
    ensures LooksUp(s, y, name) && !LooksUp(s', y, name) ==> action == StoreAndRemove(y)
  {
  }

  /** A step turns a single lookup into a double one exactly when it acquires a free semaphore of the name
      while another semaphore of it has a leader still looking. */
  lemma DoublingStep(s: State, action: Action, s': State, name: Name)
    requires Inv(s) && Next(s, action, s') && !Doubled(s, name)
    ensures Doubled(s', name) <==> Doubles(s, action, name)
  {
    if x, y :| x != y && LooksUp(s', x, name) && LooksUp(s', y, name) {
      LookersStep(s, action, s', x, name);
      LookersStep(s, action, s', y, name);
      assert LooksUp(s, x, name) || LooksUp(s, y, name);
      LedElsewhereIff(s, name, s.callers[action.caller].sem);
    }
    if Doubles(s, action, name) {
      LedElsewhereIff(s, name, s.callers[action.caller].sem);
      var y :| LooksUp(s, y, name);
      assert y != action.caller && LooksUp(s', y, name) && LooksUp(s', action.caller, name);
    }
  }

  ghost predicate DoublesAt(h: History, i: nat, name: Name) {
    i < |h.actions| && i < |h.states| && Doubles(h.states[i], h.actions[i], name)
  }

  /** At every step of every run. */
  lemma DoublesExactlyWhenLedElsewhere(h: History, n: nat, name: Name)
    requires IsRun(h) && n < |h.actions| && !Doubled(h.states[n], name)
    ensures Doubled(h.states[n + 1], name) <==> DoublesAt(h, n, name)
  {
    RunInv(h, n);
    assert StepAt(h, n);
    DoublingStep(h.states[n], h.actions[n], h.states[n + 1], name);
  }

  lemma {:induction false} FirstDouble(h: History, n: nat, name: Name) returns (i: nat)
    requires IsRun(h) && n < |h.states| && Doubled(h.states[n], name)
    ensures i < n && DoublesAt(h, i, name) && !Doubled(h.states[i], name)
  {
    assert n > 0;
    if Doubled(h.states[n - 1], name) {
      i := FirstDouble(h, n - 1, name);
    } else {
      DoublesExactlyWhenLedElsewhere(h, n - 1, name);
      i := n - 1;
    }
  }

  /** An acquisition beside a leader of the same name doubles the lookup, whether or not it was double
      already. */
  lemma DoublesIsDoubled(h: History, i: nat, name: Name)
    requires IsRun(h) && DoublesAt(h, i, name)
    ensures Doubled(h.states[i + 1], name)
  {
    RunInv(h, i);
    assert StepAt(h, i);
    var s, s', x := h.states[i], h.states[i + 1], h.actions[i].caller;
    LedElsewhereIff(s, name, s.callers[x].sem);
    var y :| LooksUp(s, y, name);
    assert y != x && LooksUp(s', y, name) && LooksUp(s', x, name);
  }

  /** A run keeps single flight for a name exactly when none of its steps acquires a free semaphore of the
      name beside a leader of it that is still looking. */
  lemma SingleFlightIff(h: History, name: Name)
    requires IsRun(h)
    ensures (forall n | 0 <= n < |h.states| :: !Doubled(h.states[n], name)) <==>
            (forall i | 0 <= i < |h.actions| :: !DoublesAt(h, i, name))
  {
    if n: nat :| n < |h.states| && Doubled(h.states[n], name) {
      var i := FirstDouble(h, n, name);
    }
    if i: nat :| i < |h.actions| && DoublesAt(h, i, name) {
      DoublesIsDoubled(h, i, name);
    }
  }

  // --------------------------------------------------------------- stale semaphores

  /** The caller is about to acquire a free semaphore that its name has moved on from. */
  ghost predicate Stale(s: State, x: CallerId) {
    && x in s.callers && s.callers[x].Cloned? && s.callers[x].sem !in s.held
    && (s.callers[x].name !in s.inFlight || s.inFlight[s.callers[x].name] != s.callers[x].sem)
  }

  ghost predicate StaleAt(h: History, i: nat) {
    i < |h.actions| && i < |h.states| && h.actions[i].TryAcquire? && Stale(h.states[i], h.actions[i].caller)
  }

  /** A leader's semaphore is the one its name is in flight under. */
  ghost predicate Timely(s: State, x: CallerId) {
    x in s.callers && s.callers[x].Looking? ==>
      s.callers[x].name in s.inFlight && s.inFlight[s.callers[x].name] == s.callers[x].sem
  }

  lemma TimelyStep(s: State, action: Action, s': State, x: CallerId)
    requires Inv(s) && Next(s, action, s') && Timely(s, x) && Timely(s, action.caller)
    requires action.TryAcquire? ==> !Stale(s, action.caller)
    ensures Timely(s', x)
  {
    assert CallerOk(s, x) && CallerOk(s, action.caller);
  }

  lemma {:induction false} TimelyRun(h: History, n: nat, x: CallerId)
    requires IsRun(h) && n < |h.states| && forall i | 0 <= i < n :: !StaleAt(h, i)
    ensures Timely(h.states[n], x)
  {
    if n > 0 {
      TimelyRun(h, n - 1, x);
      TimelyRun(h, n - 1, h.actions[n - 1].caller);
      RunInv(h, n - 1);
      assert StepAt(h, n - 1) && !StaleAt(h, n - 1);
      TimelyStep(h.states[n - 1], h.actions[n - 1], h.states[n], x);
    }
  }

  lemma TimelyIsSingle(h: History, n: nat, name: Name)
    requires IsRun(h) && n < |h.states| && forall i | 0 <= i < n :: !StaleAt(h, i)
    ensures !Doubled(h.states[n], name)
  {
    var s := h.states[n];
    RunInv(h, n);
    forall x, y | LooksUp(s, x, name) && LooksUp(s, y, name)
      ensures x == y
    {
      TimelyRun(h, n, x);
      TimelyRun(h, n, y);
      assert CallerOk(s, x) && CallerOk(s, y);
    }
  }

  /** A doubled lookup needs the acquisition of a stale semaphore before it. */
  lemma DoubleNeedsStale(h: History, n: nat, name: Name)
    requires IsRun(h) && n < |h.states| && Doubled(h.states[n], name)
    ensures exists i | 0 <= i < n :: StaleAt(h, i)
  {
    if forall i | 0 <= i < n :: !StaleAt(h, i) {
      TimelyIsSingle(h, n, name);
    }
  }

  // --------------------------------------------------------------- two runs

  /** Some run ends in `s`. */
  ghost predicate Reachable(s: State) {
    exists h: History :: IsRun(h) && h.states[|h.actions|] == s
  }

  lemma ReachNext(s: State, action: Action, s': State)
    requires Reachable(s) && Next(s, action, s')
    ensures Reachable(s')
  {
    var h: History :| IsRun(h) && h.states[|h.actions|] == s;
    var longer := History(h.states + [s'], h.actions + [action]);
    forall i | 0 <= i < |longer.actions|
      ensures StepAt(longer, i)
    {
      assert i < |h.actions| ==> StepAt(h, i);
    }
    assert IsRun(longer);
  }

  lemma ReachInit(s: State)
    requires Init(s)
    ensures Reachable(s)
  {
    var h := History([s], []);
    assert IsRun(h);
  }

  /** The first leader has come and gone while caller 1 still holds its clone. */
  function LeaderGone(name: Name): State {
    State(map[0 := Done, 1 := Cloned(name, 0)], map[], {}, 1, map[0 := name], map[0 := 0])
  }

  lemma LeaderCanGo(name: Name)
    ensures Reachable(LeaderGone(name))
  {
    var s0 := State(map[], map[], {}, 0, map[], map[]);
    var s1 := State(map[0 := Cloned(name, 0)], map[name := 0], {}, 1, map[0 := name], map[]);
    var s2 := Put(s1, 1, Cloned(name, 0));
    var s3 := Put(s2, 0, Looking(name, 0)).(held := {} + {0}, leader := map[][0 := 0]);
    var s4 := Put(s3, 0, Removed(name, 0)).(inFlight := s3.inFlight - {name});
    var s5 := Put(s4, 0, Done).(held := s4.held - {0});
    ReachInit(s0);
    ReachNext(s0, Clone(0, name), s1);
    ReachNext(s1, Clone(1, name), s2);
    ReachNext(s2, TryAcquire(0), s3);
    ReachNext(s3, StoreAndRemove(0), s4);
    ReachNext(s4, Release(0), s5);
    assert s5.callers == LeaderGone(name).callers && s5.inFlight == map[] && s5.held == {};
  }

  /** Caller 2 enters after the first leader has gone. */
  function Newcomer(s: State, name: Name): State {
    Put(s, 2, Cloned(name, 1)).(inFlight := s.inFlight[name := 1], nextSem := 2, named := s.named[1 := name])
  }

  function Acquired(s: State, x: CallerId, name: Name, sem: SemId): State {
    Put(s, x, Looking(name, sem)).(held := s.held + {sem}, leader := s.leader[sem := x])
  }

  /** A caller that cloned the semaphore before its leader removed it acquires it after a third caller has
      begun a new lookup. */
  lemma LookupCanDouble(name: Name)
    ensures exists s :: Reachable(s) && Stale(s, 1) && Doubles(s, TryAcquire(1), name)
    ensures exists s :: Reachable(s) && Doubled(s, name)
  {
    var s5 := LeaderGone(name);
    var s6 := Newcomer(s5, name);
    var s7 := Acquired(s6, 2, name, 1);
    var s8 := Acquired(s7, 1, name, 0);
    LeaderCanGo(name);
    ReachNext(s5, Clone(2, name), s6);
    ReachNext(s6, TryAcquire(2), s7);
    ReachNext(s7, TryAcquire(1), s8);
    assert 1 in s7.held && s7.named[1] == name;
    assert LedElsewhere(s7, name, 0) && Stale(s7, 1);
    assert LooksUp(s8, 1, name) && LooksUp(s8, 2, name);
    assert Doubled(s8, name);
  }

  /** Or it acquires it first, harmlessly, and the doubling step is the timely one of the newcomer. */
  lemma TimelyStepCanDouble(name: Name)
    ensures exists s :: Reachable(s) && !Stale(s, 2) && Doubles(s, TryAcquire(2), name)
  {
    var s5 := LeaderGone(name);
    var s6 := Acquired(s5, 1, name, 0);
    var s7 := Newcomer(s6, name);
    LeaderCanGo(name);
    ReachNext(s5, TryAcquire(1), s6);
    ReachNext(s6, Clone(2, name), s7);
    assert 0 in s7.held && s7.named[0] == name;
    assert LedElsewhere(s7, name, 1) && !Stale(s7, 2);
    assert Doubles(s7, TryAcquire(2), name);
  }
}

/** What admission control and shutdown promise over whole runs of a proxy. */
module AdmissionRuns {
  import opened ByteStrings
  import opened Counting
  import opened Admission

  datatype History = History(states: seq<State>, actions: seq<Action>)

  ghost predicate StepAt(h: History, n: nat)
    requires |h.states| == |h.actions| + 1 && n < |h.actions|
  {
    Next(h.states[n], h.actions[n], h.states[n + 1])
  }

  ghost predicate IsRun(max: nat, h: History) {
    && |h.states| == |h.actions| + 1
    && Init(max, h.states[0])
    && forall n | 0 <= n < |h.actions| :: StepAt(h, n)
  }

  lemma {:induction false} RunInv(max: nat, h: History, n: nat)
    requires IsRun(max, h) && n < |h.states|
    ensures Inv(max, h.states[n])
  {
    if n == 0 {
      InitInv(max, h.states[0]);
    } else {
      RunInv(max, h, n - 1);
      assert StepAt(h, n - 1);
      NextInv(max, h.states[n - 1], h.actions[n - 1], h.states[n]);
    }
  }

  /** No acceptor or connection task is between taking a permit and giving it back. */
  ghost predicate Idle(s: State) {
    s.tasks == map[] && forall k | k in s.acceptors :: !s.acceptors[k].Handling?
  }

  /** In every run active_connections <= permits held <= max_connections, the counter never underflows,
      and whenever no connection is being handled every permit is back. */
  lemma AdmissionBound(max: nat, h: History, n: nat)
    requires IsRun(max, h) && n < |h.states|
    ensures var s := h.states[n];
            && 0 <= s.active <= Held(s) <= max
            && s.permits == max - Held(s)
            && (Idle(s) ==> s.active == 0 && s.permits == max)
  {
    RunInv(max, h, n);
    var s := h.states[n];
    HavingSubset(s.acceptors, IsCounted(), HasPermit());
    HavingSubset(s.tasks, CountedTask(), AnyTask());
    if Idle(s) {
      assert Having(s.acceptors, HasPermit()) == {};
      assert Having(s.tasks, AnyTask()) == {};
    }
  }

  // --------------------------------------------------------------- fates

  /** The numbers below `n`. */
  lemma {:induction false} BelowCount(a: set<nat>, n: nat)
    requires forall c: nat :: c in a <==> c < n
    ensures |a| == n
  {
    if n == 0 {
      assert a == {};
    } else {
      var b := a - {n - 1};
      assert forall c: nat :: c in b <==> c < n - 1;
      BelowCount(b, n - 1);
      RemoveOne(a, n - 1);
    }
  }

  /** Every accepted connection has exactly one of the four fates. */
  lemma FatesPartition(m: map<nat, Fate>)
    ensures |m.Keys| == |Having(m, AnyPending())| + |Having(m, Is(Dropped))|
                        + |Having(m, Is(Rejected))| + |Having(m, Is(Served))|
  {
    var turnedAway := (f: Fate) => f == Dropped || f == Rejected;
    var decided := (f: Fate) => turnedAway(f) || f == Served;
    var any := (f: Fate) => true;
    HavingSplit(m, turnedAway, Is(Dropped), Is(Rejected));
    HavingSplit(m, decided, turnedAway, Is(Served));
    HavingSplit(m, any, AnyPending(), decided);
    assert Having(m, any) == m.Keys;
  }

  /** Conservation: accepted connections are those still being decided, those without an upstream, one
      per saturation record, and those handed to a connection task; once every acceptor has stopped none
      is left undecided. */
  lemma AcceptedAreAccountedFor(max: nat, h: History, n: nat)
    requires IsRun(max, h) && n < |h.states|
    ensures var s := h.states[n];
            && s.accepted == |Having(s.fates, AnyPending())| + |Having(s.fates, Is(Dropped))|
                             + s.rejections + |Having(s.fates, Is(Served))|
            && (AllStopped(s) ==> |Having(s.fates, AnyPending())| == 0)
  {
    RunInv(max, h, n);
    var s := h.states[n];
    forall c: nat
      ensures c in s.fates.Keys <==> c < s.accepted
    {
      assert FateOk(s, c);
    }
    BelowCount(s.fates.Keys, s.accepted);
    FatesPartition(s.fates);
    if AllStopped(s) {
      forall c: nat
        ensures c !in Having(s.fates, AnyPending())
      {
        assert FateOk(s, c);
      }
      assert Having(s.fates, AnyPending()) == {};
    }
  }

  lemma FateKept(max: nat, s: State, action: Action, s': State, c: ConnId)
    requires Inv(max, s) && Next(s, action, s')
    requires c in s.fates && !s.fates[c].Pending?
    ensures c in s'.fates && s'.fates[c] == s.fates[c]
  {
    assert FateOk(s, c) && FateOk(s, s.accepted);
    if OfAcceptor(action) {
      assert HandlerOk(s, action.acceptor);
    }
  }

  /** A connection dropped, rejected or handed over stays so for the rest of the run. */
  lemma {:induction false} FatesAreFinal(max: nat, h: History, i: nat, j: nat, c: ConnId)
    requires IsRun(max, h) && i <= j < |h.states|
    requires c in h.states[i].fates && !h.states[i].fates[c].Pending?
    ensures c in h.states[j].fates && h.states[j].fates[c] == h.states[i].fates[c]
    decreases j
  {
    if i < j {
      FatesAreFinal(max, h, i, j - 1, c);
      RunInv(max, h, j - 1);
      assert StepAt(h, j - 1);
      FateKept(max, h.states[j - 1], h.actions[j - 1], h.states[j], c);
    }
  }

  ghost predicate Spawns(h: History, i: nat, c: ConnId) {
    && i < |h.actions| && i < |h.states| && h.actions[i].Spawn?
    && h.actions[i].acceptor in h.states[i].acceptors
    && h.states[i].acceptors[h.actions[i].acceptor].Handling?
    && h.states[i].acceptors[h.actions[i].acceptor].conn == c
  }

  lemma SpawnsPending(max: nat, h: History, i: nat, c: ConnId)
    requires IsRun(max, h)
    ensures Spawns(h, i, c) ==> c in h.states[i].fates && h.states[i].fates[c].Pending?
  {
    if Spawns(h, i, c) {
      RunInv(max, h, i);
      assert HandlerOk(h.states[i], h.actions[i].acceptor);
    }
  }

  /** A connection is handed to a connection task, which then runs its handler, at most once, and then it was
      neither dropped nor rejected, before or after. */
  lemma ServedOnce(max: nat, h: History, i: nat, j: nat, c: ConnId)
    requires IsRun(max, h) && Spawns(h, i, c) && j < |h.states|
    ensures i < j ==> c in h.states[j].fates && h.states[j].fates[c] == Served && !Spawns(h, j, c)
    ensures j == i + 1 ==> TaskAt(h.states[j], c, Running)
    ensures j <= i && c in h.states[j].fates ==> h.states[j].fates[c].Pending?
  {
    SpawnsPending(max, h, i, c);
    if i < j {
      assert StepAt(h, i);
      FatesAreFinal(max, h, i + 1, j, c);
      SpawnsPending(max, h, j, c);
    } else if c in h.states[j].fates && !h.states[j].fates[c].Pending? {
      FatesAreFinal(max, h, j, i, c);
    }
  }

  /** A connection is turned away exactly when it has no upstream, or has one and all `max` permits are
      held; only the second writes a saturation record, and then exactly one. */
  lemma TurnedAwayIff(max: nat, h: History, i: nat, k: AcceptorId, upstream: bool)
    requires IsRun(max, h) && i < |h.actions| && h.actions[i] == Decide(k, upstream)
    ensures var s, s' := h.states[i], h.states[i + 1];
            && k in s.acceptors && s.acceptors[k].Handling?
            && var c := s.acceptors[k].conn;
            && c in s'.fates
            && (s'.fates[c] == Dropped <==> !upstream)
            && (s'.fates[c] == Rejected <==> upstream && Held(s) == max)
            && s'.rejections == s.rejections + One(s'.fates[c] == Rejected)
            && (s'.fates[c] == Pending(k) <==> Held(s') == Held(s) + 1)
  {
    RunInv(max, h, i);
    RunInv(max, h, i + 1);
    assert StepAt(h, i);
  }

  // --------------------------------------------------------------- shutdown

  /** With every acceptor stopped, a step stops no fewer, starts no handler and raises no count. */
  lemma StoppedStep(s: State, action: Action, s': State)
    requires Next(s, action, s') && AllStopped(s)
    ensures AllStopped(s') && s'.active <= s.active && s'.accepted == s.accepted
    ensures forall c | c in s'.tasks :: c in s.tasks && (s'.tasks[c] == Running ==> s.tasks[c] == Running)
  {
  }

  /** Once all acceptors have stopped the count only falls, and no handler starts. */
  lemma {:induction false} CountOnlyFalls(max: nat, h: History, i: nat, j: nat)
    requires IsRun(max, h) && i <= j < |h.states| && AllStopped(h.states[i])
    ensures AllStopped(h.states[j]) && h.states[j].active <= h.states[i].active
    ensures h.states[j].accepted == h.states[i].accepted
    ensures forall c | TaskAt(h.states[j], c, Running) :: TaskAt(h.states[i], c, Running)
    decreases j
  {
    if i < j {
      CountOnlyFalls(max, h, i, j - 1);
      assert StepAt(h, j - 1);
      StoppedStep(h.states[j - 1], h.actions[j - 1], h.states[j]);
      forall c | TaskAt(h.states[j], c, Running)
        ensures TaskAt(h.states[i], c, Running)
      {
        assert TaskAt(h.states[j - 1], c, Running);
      }
    }
  }

  lemma NoneCounted(max: nat, s: State, c: ConnId)
    requires Inv(max, s) && s.active == 0
    ensures c in s.tasks ==> s.tasks[c] == Uncounted
  {
    assert |Having(s.tasks, CountedTask())| == 0;
    assert c !in Having(s.tasks, CountedTask());
  }

  lemma {:induction false} WaitStarted(max: nat, h: History, i: nat, j: nat)
    requires IsRun(max, h) && i <= j < |h.states| && h.states[i].wait == Complete
    ensures h.states[j].wait == Complete
    decreases j
  {
    if i < j {
      WaitStarted(max, h, i, j - 1);
      assert StepAt(h, j - 1);
    }
  }

  /** "Shutdown complete" is never said early: from then on no `handle_connection` is running or will
      run, every acceptor is stopped and every accepted connection has its final fate. */
  lemma CompleteMeansDrained(max: nat, h: History, i: nat, j: nat, c: ConnId)
    requires IsRun(max, h) && i <= j < |h.states| && h.states[i].wait == Complete
    ensures var s := h.states[j];
            && !TaskAt(s, c, Running) && !TaskAt(s, c, Returned) && s.active == 0
            && AllStopped(s)
            && (c < s.accepted ==> c in s.fates && !s.fates[c].Pending?)
  {
    WaitStarted(max, h, i, j);
    RunInv(max, h, j);
    NoneCounted(max, h.states[j], c);
    assert FateOk(h.states[j], c);
  }

  ghost predicate Enabled(s: State, action: Action) {
    exists s' :: Next(s, action, s')
  }

  /** What an acceptor does next: select, decide, count, spawn, or stop once the signal is there. */
  function AcceptorMove(a: Acceptor, k: AcceptorId, upstream: bool): Action {
    match a
    case Selecting => Accept(k)
    case Handling(_, Arrived) => Decide(k, upstream)
    case Handling(_, Permitted) => Count(k)
    case Handling(_, Counted) => Spawn(k)
    case Stopped => BeginWait
  }

  function TaskMove(t: Task, c: ConnId): Action {
    match t
    case Running => Return(c)
    case Returned => Uncount(c)
    case Uncounted => Free(c)
  }

  /** Nobody sticks: an acceptor that has not stopped can always go on, saturated or not, and stop from its
      select once the signal is there; a connection task can always go on to give back its count and its
      permit; with all acceptors stopped the wait can begin, can end as soon as the count is zero, and can expire. */
  lemma NobodySticks(max: nat, h: History, n: nat, k: AcceptorId, c: ConnId, upstream: bool)
    requires IsRun(max, h) && n < |h.states|
    ensures var s := h.states[n];
            && (k in s.acceptors && !s.acceptors[k].Stopped? ==> Enabled(s, AcceptorMove(s.acceptors[k], k, upstream)))
            && (InSelect(s, k) && s.signalled ==> Enabled(s, Stop(k)))
            && (c in s.tasks ==> Enabled(s, TaskMove(s.tasks[c], c)))
            && (AllStopped(s) && s.wait == NotWaiting ==> Enabled(s, BeginWait))
            && (s.wait == Polling ==> Enabled(s, Expire) && (s.active == 0 ==> Enabled(s, SeeNone)))
  {
    var s := h.states[n];
    AcceptorCanMove(s, k, upstream);
    TaskCanMove(s, c);
    if InSelect(s, k) && s.signalled {
      assert Next(s, Stop(k), s.(acceptors := s.acceptors[k := Stopped]));
    }
    if AllStopped(s) && s.wait == NotWaiting {
      assert Next(s, BeginWait, s.(wait := Polling));
    }
    if s.wait == Polling {
      assert Next(s, Expire, s.(wait := Expired));
      assert s.active == 0 ==> Next(s, SeeNone, s.(wait := Complete));
    }
  }

  lemma TaskCanMove(s: State, c: ConnId)
    ensures c in s.tasks ==> Enabled(s, TaskMove(s.tasks[c], c))
  {
    if c in s.tasks {
      var s' := match s.tasks[c]
        case Running => s.(tasks := s.tasks[c := Returned])
        case Returned => s.(tasks := s.tasks[c := Uncounted], active := s.active - 1)
        case Uncounted => s.(tasks := s.tasks - {c}, permits := s.permits + 1);
      assert Next(s, TaskMove(s.tasks[c], c), s');
    }
  }

  lemma AcceptorCanMove(s: State, k: AcceptorId, upstream: bool)
    ensures k in s.acceptors && !s.acceptors[k].Stopped? ==> Enabled(s, AcceptorMove(s.acceptors[k], k, upstream))
  {
    if k in s.acceptors && s.acceptors[k].Selecting? {
      assert Next(s, Accept(k),
                  Move(s, k, Handling(s.accepted, Arrived), s.accepted, Pending(k)).(accepted := s.accepted + 1));
    } else if k in s.acceptors && s.acceptors[k].Handling? {
      var c := s.acceptors[k].conn;
      var s' := match s.acceptors[k].stage
        case Arrived =>
          if !upstream then Move(s, k, Selecting, c, Dropped)
          else if s.permits == 0 then Move(s, k, Selecting, c, Rejected).(rejections := s.rejections + 1)
          else Move(s, k, Handling(c, Permitted), c, Pending(k)).(permits := s.permits - 1)
        case Permitted => Move(s, k, Handling(c, Counted), c, Pending(k)).(active := s.active + 1)
        case Counted => Move(s, k, Selecting, c, Served).(tasks := s.tasks[c := Running]);
      assert Next(s, AcceptorMove(s.acceptors[k], k, upstream), s');
    }
  }

  // --------------------------------------------------------------- the signal

  /** A watch channel as its receiver sees it: the value there is, the values it will find on later changes,
      and whether the sender is dropped behind them. */
  datatype Watch = Watch(current: bool, coming: seq<bool>, dropped: bool)

  /** `wait_shutdown`: resolves exactly when the channel says or comes to say shutdown, or its sender goes;
      without a channel it never does.  `looks` counts the changes awaited, no more than needed. */
  method WaitShutdown(channel: Option<Watch>) returns (resolved: bool, looks: nat)
    ensures resolved <==> channel.Some? && (channel.value.current || true in channel.value.coming || channel.value.dropped)
    ensures channel.Some? ==> looks <= |channel.value.coming|
    ensures channel.Some? && looks > 0 ==> !channel.value.current
    ensures channel.Some? ==> forall i | 0 <= i < looks - 1 :: !channel.value.coming[i]
  {
    looks := 0;
    if channel.None? {
      return false, 0;
    }
    var watch := channel.value;
    var value := watch.current;
    while !value && looks < |watch.coming|
      invariant looks <= |watch.coming| && (looks > 0 ==> !watch.current)
      invariant value == if looks == 0 then watch.current else watch.coming[looks - 1]
      invariant forall i | 0 <= i < looks - 1 :: !watch.coming[i]
    {
      value := watch.coming[looks];
      looks := looks + 1;
    }
    resolved := value || watch.dropped;
  }

  // --------------------------------------------------------------- one proxy, in place

  datatype Verdict = ShutdownComplete | GraceExpired

  /** The tasks of `started` still running after the first `k` groups have ended. */
  ghost function StillRunning(started: set<ConnId>, ending: seq<set<ConnId>>, k: nat): set<ConnId>
    requires k <= |ending|
  {
    if k == 0 then started else StillRunning(started, ending, k - 1) - ending[k - 1]
  }

  /** The counters `handle_accept`, the connection task and the shutdown wait update. */
  class ConnectionGate {
    const max: nat
    var permits: nat
    var active: nat
    var rejections: nat
    var running: set<ConnId>    // connection tasks not yet finished

    ghost predicate Valid()
      reads this
    {
      active == |running| && permits + |running| == max
    }

    constructor (max: nat)
      ensures Valid() && this.max == max && running == {} && rejections == 0
    {
      this.max, permits, active, rejections, running := max, max, 0, 0, {};
    }

    method HandleAccept(conn: ConnId, upstream: bool) returns (fate: Fate)
      requires Valid() && conn !in running
      modifies this
      ensures Valid() && !fate.Pending?
      ensures fate == Dropped <==> !upstream
      ensures fate == Rejected <==> upstream && |old(running)| == max
      ensures running == if fate == Served then old(running) + {conn} else old(running)
      ensures rejections == old(rejections) + One(fate == Rejected)
    {
      if !upstream {
        return Dropped;
      }
      if permits == 0 {
        rejections := rejections + 1;
        return Rejected;
      }
      permits := permits - 1;
      active := active + 1;
      running := running + {conn};
      fate := Served;
    }

    method Finish(conn: ConnId)
      requires Valid() && conn in running
      modifies this
      ensures Valid() && running == old(running) - {conn} && rejections == old(rejections)
    {
      running := running - {conn};
      active := active - 1;
      permits := permits + 1;
    }

    method FinishAll(conns: set<ConnId>)
      requires Valid()
      modifies this
      ensures Valid() && running == old(running) - conns && rejections == old(rejections)
    {
      var left := conns;
      while left != {}
        invariant Valid() && left <= conns && rejections == old(rejections)
        invariant running == old(running) - (conns - left)
        decreases |left|
      {
        var c :| c in left;
        if c in running {
          Finish(c);
        }
        left := left - {c};
      }
    }

    /** The acceptors have stopped; `ending[k]` are the tasks that end during the k-th sleep, and the
        grace period is over after |ending| sleeps. Complete means drained, at the first look that could
        tell; expiry is declared only with the whole period used and some task still running. */
    method WaitForGracefulShutdown(ending: seq<set<ConnId>>) returns (verdict: Verdict, sleeps: nat)
      requires Valid()
      modifies this
      ensures Valid() && sleeps <= |ending| && running == StillRunning(old(running), ending, sleeps)
      ensures verdict == ShutdownComplete <==> running == {}
      ensures verdict == GraceExpired ==> sleeps == |ending|
      ensures forall k | 0 <= k < sleeps :: StillRunning(old(running), ending, k) != {}
    {
      sleeps := 0;
      while active != 0 && sleeps < |ending|
        invariant Valid() && sleeps <= |ending|
        invariant running == StillRunning(old(running), ending, sleeps)
        invariant forall k | 0 <= k < sleeps :: StillRunning(old(running), ending, k) != {}
      {
        FinishAll(ending[sleeps]);
        sleeps := sleeps + 1;
      }
      verdict := if active == 0 then ShutdownComplete else GraceExpired;
    }
  }
}

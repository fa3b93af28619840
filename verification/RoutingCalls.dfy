/** What one routing call may do: its authorisation, its length and its progress. */
module RoutingCalls {
  import opened ByteStrings
  import opened Counting
  import opened SpiffeIds
  import opened Policies
  import opened MuxPools
  import opened Routing
  import opened RoutingInvariants

  // ------------------------------------------------------------ authorisation

  /** An Allow is recorded exactly for the peer in question, when the policy says so. */
  predicate AllowFits(v: View, e: Effect) {
    e.allow.Some? ==> e.allow == v.peer && v.allowed
  }

  lemma EffectAllowFits(mux: bool, task: Task, v: View, answer: Answer, e: Effect)
    requires EffectOf(mux, task, v, answer) == Some(e)
    requires task.pc.Connected? ==> v.peer == Some(task.pc.peer)
    ensures AllowFits(v, e)
  {
  }

  /** In step `i` of the run, task `x` evaluates the policy for `peer` and is told Allow. */
  ghost predicate AllowedAt(c: Config, h: History, i: nat, x: TaskId, peer: SpiffeId) {
    && i < |h.actions| && i < |h.states|
    && h.actions[i].Run? && h.actions[i].task == x && x in h.states[i].tasks
    && PeerAt(h.states[i], h.states[i].tasks[x].pc) == Some(peer)
    && Verdict(h.states[i].rules, c.localId, peer) == Allow
  }

  lemma ApprovalStep(c: Config, s: State, action: Action, s': State, x: TaskId, peer: SpiffeId)
    requires Next(c, s, action, s') && (x, peer) in s'.approved && (x, peer) !in s.approved
    ensures action.Run? && action.task == x && x in s.tasks && PeerAt(s, s.tasks[x].pc) == Some(peer)
    ensures Verdict(s.rules, c.localId, peer) == Allow
  {
    if action.Run? {
      var task, e := s.tasks[action.task], EffectIn(c, s, action).value;
      EffectAllowFits(c.muxEnabled, task, ViewOf(c, s, task), action.answer, e);
    }
  }

  lemma {:induction false} ApprovalHasCause(c: Config, h: History, n: nat, x: TaskId, peer: SpiffeId)
    requires IsRun(c, h) && n < |h.states| && (x, peer) in h.states[n].approved
    ensures exists i | 0 <= i < n :: AllowedAt(c, h, i, x, peer)
  {
    if n > 0 {
      if (x, peer) in h.states[n - 1].approved {
        ApprovalHasCause(c, h, n - 1, x, peer);
      } else {
        assert StepAt(c, h, n - 1);
        ApprovalStep(c, h.states[n - 1], h.actions[n - 1], h.states[n], x, peer);
        assert AllowedAt(c, h, n - 1, x, peer);
      }
    }
  }

  /** The peer whose connection carries the outcome of a routing call. */
  function CarriedBy(s: State, route: Route): Option<SpiffeId> {
    match route
    case Mux(t) => if t in s.tunnels then Some(s.tunnels[t].peer) else None
    case Legacy(peer) => Some(peer)
    case _ => None
  }

  /** A call that returns a stream or a connection was told Allow before, in that same call, for the
      identity of the very peer that carries it. */
  lemma RoutedMeansAllowed(c: Config, h: History, n: nat, x: TaskId)
    requires IsRun(c, h) && n < |h.states| && x in h.states[n].tasks
    requires var pc := h.states[n].tasks[x].pc; pc.Routed? && (pc.route.Mux? || pc.route.Legacy?)
    ensures var peer := CarriedBy(h.states[n], h.states[n].tasks[x].pc.route);
            peer.Some? && exists i | 0 <= i < n :: AllowedAt(c, h, i, x, peer.value)
  {
    RunInv(c, h, n);
    assert TaskOk(c, h.states[n], x);
    var peer := CarriedBy(h.states[n], h.states[n].tasks[x].pc.route);
    ApprovalHasCause(c, h, n, x, peer.value);
  }

  /** A denied peer never enters the pool: whoever registered a pooled tunnel was told Allow for its
      peer before. */
  lemma PooledMeansAllowed(c: Config, h: History, n: nat, a: Addr, t: TunnelId)
    requires IsRun(c, h) && n < |h.states| && t in Pool(h.states[n], a)
    ensures t in h.states[n].tunnels
    ensures var tunnel := h.states[n].tunnels[t];
            exists i | 0 <= i < n :: AllowedAt(c, h, i, tunnel.creator, tunnel.peer)
  {
    RunInv(c, h, n);
    assert AddressOk(c, h.states[n], a);
    ApprovalHasCause(c, h, n, h.states[n].tunnels[t].creator, h.states[n].tunnels[t].peer);
  }

  // ----------------------------------------------------------------- length

  function PcRank(pc: Pc): nat {
    match pc
    case Start => 21
    case Pick => 20
    case FindLock => 19
    case WaitLock(_) => 18
    case Recheck => 17
    case Unlock(_) => 16
    case Grow => 16
    case AtCap => 15
    case Connect => 15
    case PickAny => 14
    case Connected(_, _) => 14
    case Register(_) => 13
    case Check(_) => 12
    case Reserve(_, _) => 11
    case Opening(_, _) => 10
    case Evicting(_, _) => 9
    case Finish(_) => 8
    case Routed(_) => 0
  }

  /** An upper bound on the steps a task still has before it. */
  function Rank(task: Task): nat {
    if task.attempt >= ATTEMPTS then PcRank(task.pc) else 20 * (ATTEMPTS - task.attempt - 1) + PcRank(task.pc)
  }

  predicate Descends(task: Task, e: Effect) {
    e.next.Some? && Rank(e.next.value) < Rank(task)
  }

  lemma StreamDescends(task: Task, v: View, answer: Answer, e: Effect)
    requires StreamStep(task, v, answer) == Some(e) && task.attempt < ATTEMPTS
    ensures Descends(task, e)
  {
  }

  lemma EstablishDescends(task: Task, v: View, answer: Answer, e: Effect)
    requires EstablishStep(task, v, answer) == Some(e) && task.attempt < ATTEMPTS
    ensures Descends(task, e)
  {
  }

  /** The step reads one load of a scan under way. */
  predicate Reads(task: Task, v: View) {
    Scanning(task.pc) && |task.read| < |v.pool|
  }

  lemma PickDescends(task: Task, e: Effect)
    requires PickStep(task) == Some(e) && task.attempt < ATTEMPTS
    ensures Descends(task, e)
  {
  }

  lemma LoopDescends(mux: bool, task: Task, v: View, e: Effect)
    requires LoopStep(mux, task, v) == Some(e) && task.attempt < ATTEMPTS
    ensures Descends(task, e)
  {
  }

  /** Every step but the reads of a scan brings the call nearer to its end. */
  lemma EffectDescends(mux: bool, task: Task, v: View, answer: Answer, e: Effect)
    requires EffectOf(mux, task, v, answer) == Some(e) && task.attempt < ATTEMPTS
    ensures Reads(task, v) || Descends(task, e)
    ensures Reads(task, v) ==> e == ReadStep(task, v)
  {
    if InStream(task.pc) {
      StreamDescends(task, v, answer, e);
    } else if InEstablish(task.pc) {
      EstablishDescends(task, v, answer, e);
    } else if !Scanning(task.pc) {
      LoopDescends(mux, task, v, e);
    } else if !Reads(task, v) {
      PickDescends(task, e);
    }
  }

  /** The action is a step of task `x` other than the read of a load. */
  ghost predicate Counts(c: Config, s: State, action: Action, x: TaskId) {
    action.Run? && action.task == x && x in s.tasks && !Reads(s.tasks[x], ViewOf(c, s, s.tasks[x]))
  }

  /** Steps of task `x` among the first `n` actions, the loads it reads apart. */
  ghost function StepsOf(c: Config, h: History, n: nat, x: TaskId): nat
    requires n <= |h.actions| && n <= |h.states|
  {
    if n == 0 then 0
    else StepsOf(c, h, n - 1, x) + One(Counts(c, h.states[n - 1], h.actions[n - 1], x))
  }

  /** What a task may still do, or could have done had it been left to. */
  ghost function Ahead(s: State, x: TaskId): int {
    if x in s.tasks then Rank(s.tasks[x]) else if x < s.nextTask then 0 else LONGEST_CALL
  }

  const LONGEST_CALL: nat := 81

  lemma AheadStep(c: Config, s: State, action: Action, s': State, x: TaskId)
    requires Inv(c, s) && Next(c, s, action, s')
    ensures Ahead(s', x) + One(Counts(c, s, action, x)) <= Ahead(s, x)
  {
    if action.Run? || action.Leave? {
      assert TaskOk(c, s, action.task);
    }
    if action.Run? && action.task == x {
      EffectDescends(c.muxEnabled, s.tasks[x], ViewOf(c, s, s.tasks[x]), action.answer, EffectIn(c, s, action).value);
    } else if action.Spawn? {
      SpawnIsNew(c, s);
    }
  }

  lemma AheadAtStart(s: State, x: TaskId)
    requires Init(s)
    ensures Ahead(s, x) <= LONGEST_CALL
  {
  }

  lemma {:induction false} StepsPlusAhead(c: Config, h: History, n: nat, x: TaskId)
    requires IsRun(c, h) && n < |h.states|
    ensures StepsOf(c, h, n, x) + Ahead(h.states[n], x) <= LONGEST_CALL
  {
    if n == 0 {
      AheadAtStart(h.states[0], x);
    } else {
      StepsPlusAhead(c, h, n - 1, x);
      RunInv(c, h, n - 1);
      assert StepAt(c, h, n - 1);
      AheadStep(c, h.states[n - 1], h.actions[n - 1], h.states[n], x);
    }
  }

  /** However the other tasks run, a routing call ends after at most eighty-one steps of its own besides the
      loads it reads: the four attempts cannot chase dead tunnels for ever.  And a scan reads each tunnel
      of the list, which stays as it is meanwhile, at most once. */
  lemma CallsAreBounded(c: Config, h: History, n: nat, x: TaskId)
    requires IsRun(c, h) && n < |h.states|
    ensures StepsOf(c, h, n, x) <= LONGEST_CALL
    ensures x in h.states[n].tasks ==> |h.states[n].tasks[x].read| <= |Pool(h.states[n], h.states[n].tasks[x].addr)|
  {
    StepsPlusAhead(c, h, n, x);
    RunInv(c, h, n);
    if x in h.states[n].tasks {
      assert TaskOk(c, h.states[n], x);
    }
  }

  // --------------------------------------------------------------- progress

  /** The answers a task at `pc` may get; where it waits for none, any will do. */
  predicate Expects(pc: Pc, answer: Answer) {
    if pc.Opening? then answer == OpenOk || answer == OpenFailed
    else if pc.Connect? then answer.HandshakeFailed? || answer.HandshakeOk?
    else true
  }

  /** The task can take a step, whichever answer it gets. */
  ghost predicate CanMove(c: Config, s: State, x: TaskId) {
    x in s.tasks && forall answer | Expects(s.tasks[x].pc, answer) :: CanTake(c, s, x, answer)
  }

  ghost predicate CanTake(c: Config, s: State, x: TaskId, answer: Answer) {
    exists s' :: Next(c, s, Run(x, answer), s')
  }

  lemma TakesEffect(c: Config, s: State, x: TaskId, answer: Answer)
    requires x in s.tasks
    requires var e := EffectOf(c.muxEnabled, s.tasks[x], ViewOf(c, s, s.tasks[x]), answer);
             e.Some? && MayStep(c, s, x, s.tasks[x].addr, e.value)
    ensures CanTake(c, s, x, answer)
  {
    var e := EffectOf(c.muxEnabled, s.tasks[x], ViewOf(c, s, s.tasks[x]), answer).value;
    assert Next(c, s, Run(x, answer), Apply(s, x, s.tasks[x].addr, e));
  }

  /** Task `y` keeps task `x` waiting: it holds the creation lock that `x` wants, or it is reading the list
      that `x` is about to change, or its scan must not be interrupted. */
  ghost predicate KeepsWaiting(c: Config, s: State, x: TaskId, y: TaskId) {
    && x in s.tasks && y in s.tasks && x != y
    && (|| (s.tasks[x].pc.WaitLock? && s.tasks[x].pc.lock in s.holder && s.holder[s.tasks[x].pc.lock] == y)
        || (s.tasks[y].read != [] && (c.atomicScans || s.tasks[y].addr == s.tasks[x].addr)))
  }

  /** Every expected answer lets the task step, whatever it is at, unless it is done or its lock is taken. */
  lemma HasEffect(mux: bool, task: Task, v: View, answer: Answer)
    requires !task.pc.Routed? && (task.pc.WaitLock? ==> v.free) && (task.pc.Check? ==> v.peer.Some?)
    requires Expects(task.pc, answer)
    ensures EffectOf(mux, task, v, answer).Some?
    ensures Scanning(task.pc) ==> EffectOf(mux, task, v, answer).value.pool.SamePool?
  {
  }

  /** A scan under way, if there is no other, is never kept waiting. */
  lemma ReaderMoves(c: Config, s: State, y: TaskId)
    requires y in s.tasks && TaskOk(c, s, y) && s.tasks[y].read != [] && (c.atomicScans ==> OnlyScan(s, y))
    ensures CanMove(c, s, y)
  {
    forall answer | Expects(s.tasks[y].pc, answer)
      ensures CanTake(c, s, y, answer)
    {
      HasEffect(c.muxEnabled, s.tasks[y], ViewOf(c, s, s.tasks[y]), answer);
      TakesEffect(c, s, y, answer);
    }
  }

  lemma MovesUnlessKept(c: Config, s: State, x: TaskId)
    requires x in s.tasks && TaskOk(c, s, x) && !s.tasks[x].pc.Routed?
    requires s.tasks[x].pc.WaitLock? ==> s.tasks[x].pc.lock !in s.holder
    requires ListFree(s, x, s.tasks[x].addr) && (c.atomicScans ==> OnlyScan(s, x))
    ensures CanMove(c, s, x)
  {
    forall answer | Expects(s.tasks[x].pc, answer)
      ensures CanTake(c, s, x, answer)
    {
      HasEffect(c.muxEnabled, s.tasks[x], ViewOf(c, s, s.tasks[x]), answer);
      TakesEffect(c, s, x, answer);
    }
  }

  /** In a run with atomic scans at most one scan is under way. */
  ghost predicate OneScan(c: Config, s: State) {
    c.atomicScans ==> forall x, y | x in s.tasks && y in s.tasks && s.tasks[x].read != [] && s.tasks[y].read != [] :: x == y
  }

  lemma {:induction false} RunOneScan(c: Config, h: History, n: nat)
    requires IsRun(c, h) && n < |h.states|
    ensures OneScan(c, h.states[n])
  {
    if n > 0 {
      RunOneScan(c, h, n - 1);
      assert StepAt(c, h, n - 1);
    }
  }

  /** A waiting task is kept waiting by one that can move, or that a scan under way keeps waiting in turn. */
  ghost predicate CanProceed(c: Config, s: State, x: TaskId) {
    CanMove(c, s, x) || exists y :: KeepsWaiting(c, s, x, y) && CanMove(c, s, y)
  }

  lemma ProceedsUnlessLocked(c: Config, s: State, x: TaskId)
    requires TasksOk(c, s) && OneScan(c, s) && x in s.tasks && !s.tasks[x].pc.Routed?
    requires s.tasks[x].pc.WaitLock? ==> s.tasks[x].pc.lock !in s.holder
    ensures CanProceed(c, s, x)
  {
    assert TaskOk(c, s, x);
    if y :| y in s.tasks && y != x && s.tasks[y].read != [] && (c.atomicScans || s.tasks[y].addr == s.tasks[x].addr) {
      assert TaskOk(c, s, y);
      ReaderMoves(c, s, y);
      assert KeepsWaiting(c, s, x, y);
    } else {
      MovesUnlessKept(c, s, x);
    }
  }

  /** No deadlock: in every state of every run, a task that has not finished can proceed, whichever answer it
      gets, or waits for a creation lock whose holder can. */
  lemma NoDeadlock(c: Config, h: History, n: nat, x: TaskId)
    requires IsRun(c, h) && n < |h.states| && x in h.states[n].tasks && !h.states[n].tasks[x].pc.Routed?
    ensures var s := h.states[n];
            || CanProceed(c, s, x)
            || (s.tasks[x].pc.WaitLock? && s.tasks[x].pc.lock in s.holder &&
                s.holder[s.tasks[x].pc.lock] != x && CanProceed(c, s, s.holder[s.tasks[x].pc.lock]))
  {
    RunInv(c, h, n);
    RunOneScan(c, h, n);
    var s := h.states[n];
    assert TaskOk(c, s, x);
    if s.tasks[x].pc.WaitLock? && s.tasks[x].pc.lock in s.holder {
      var y := s.holder[s.tasks[x].pc.lock];
      assert TaskOk(c, s, y);
      ProceedsUnlessLocked(c, s, y);
    } else {
      ProceedsUnlessLocked(c, s, x);
    }
  }

  ghost predicate Enabled(c: Config, s: State, action: Action) {
    exists s' :: Next(c, s, action, s')
  }

  /** Connections come while there are permits, and go at any point. */
  lemma TasksComeAndGo(c: Config, s: State, a: Addr, x: TaskId)
    ensures |s.tasks| < c.maxConnections ==> Enabled(c, s, Spawn(a))
    ensures x in s.tasks && (c.atomicScans ==> OnlyScan(s, x)) ==> Enabled(c, s, Leave(x))
  {
    if |s.tasks| < c.maxConnections {
      var task := Task(a, 0, None, Start, []);
      assert Next(c, s, Spawn(a), s.(tasks := s.tasks[s.nextTask := task], nextTask := s.nextTask + 1));
    }
    if x in s.tasks && (c.atomicScans ==> OnlyScan(s, x)) {
      assert Next(c, s, Leave(x), Apply(s, x, s.tasks[x].addr, EndOf(s.tasks[x])));
    }
  }

  /** Drivers end at any time, and the policy changes at any time. */
  lemma DriversComeToAnEnd(c: Config, s: State, t: TunnelId, rules: Rules)
    ensures t in s.tunnels && s.tunnels[t].running ==> Enabled(c, s, DriverExit(t))
    ensures Enabled(c, s, ChangePolicy(rules))
  {
    if t in s.tunnels && s.tunnels[t].running {
      assert Next(c, s, DriverExit(t), s.(tunnels := s.tunnels[t := s.tunnels[t].(running := false)]));
    }
    assert Next(c, s, ChangePolicy(rules), s.(rules := rules));
  }

  /** A driver that has ended evicts its tunnel once the list is free. */
  lemma EndedDriversEvict(c: Config, s: State, t: TunnelId)
    requires t in s.tunnels && !s.tunnels[t].running && ListFree(s, s.nextTask, s.tunnels[t].addr)
    ensures Enabled(c, s, DriverEvict(t))
  {
    var b := s.tunnels[t].addr;
    assert Next(c, s, DriverEvict(t), s.(pools := s.pools[b := Without(Pool(s, b), t)],
                                         losses := if t in Pool(s, b) then Bump(s.losses, b) else s.losses));
  }
}

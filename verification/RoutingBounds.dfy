/** Handshake amortisation: how many handshakes the outstanding connections to a peer cost. */
module RoutingBounds {
  import opened ByteStrings
  import opened Counting
  import opened MuxPools
  import opened Routing
  import opened RoutingInvariants

  /** The task is bound for `a`, in whatever phase. */
  ghost function BoundFor(a: Addr): Task -> bool {
    (k: Task) => k.addr == a
  }

  /** Connections to `a` outstanding, from accept to the end of the relay. */
  ghost function Outstanding(s: State, a: Addr): nat {
    |Having(s.tasks, BoundFor(a))|
  }

  // -------------------------------------------------- handshake amortisation

  /** The task has found no spare capacity and is about to connect or connecting. */
  predicate Growing(pc: Pc) {
    pc.Grow? || Connecting(pc)
  }

  ghost function GrowingTo(a: Addr): Task -> bool {
    (k: Task) => k.addr == a && Growing(k.pc)
  }

  ghost predicate GrowthWithin(s: State, a: Addr, k: nat) {
    |Pool(s, a)| + |Having(s.tasks, GrowingTo(a))| <= k
  }

  /** The scan of a task under the lock has found no spare capacity. */
  predicate Fruitless(task: Task, v: View) {
    && task.pc.Recheck? && |task.read| >= |v.pool|
    && PickRead(task.read, Some(STREAMS_PER_TUNNEL)).None?
  }

  /** Only a fruitless recheck under the lock starts to grow the pool. */
  predicate GrowFits(task: Task, v: View, e: Effect) {
    var after := e.next.Some? && Growing(e.next.value.pc);
    && One(after) + One(e.pool.Join?) <= One(Growing(task.pc)) + One(Fruitless(task, v))
    && (Fruitless(task, v) ==> e.pool.SamePool?)
  }

  lemma ScanGrowFits(task: Task, v: View, e: Effect)
    requires ScanStep(task, v) == Some(e)
    ensures GrowFits(task, v, e)
  {
  }

  lemma EffectGrowFits(task: Task, v: View, answer: Answer, e: Effect)
    requires EffectOf(true, task, v, answer) == Some(e)
    ensures GrowFits(task, v, e)
  {
    if InStream(task.pc) {
      assert StreamStep(task, v, answer) == Some(e);
    } else if InEstablish(task.pc) {
      assert EstablishStep(task, v, answer) == Some(e);
    } else if Scanning(task.pc) {
      ScanGrowFits(task, v, e);
    } else {
      assert LoopStep(true, task, v) == Some(e);
    }
  }

  /** The task holds a slot on one of `ids`. */
  ghost function SlotIn(ids: seq<TunnelId>): Task -> bool {
    (k: Task) => Slot(k).Some? && Slot(k).value in ids
  }

  lemma SlotsInSplit(s: State, t: TunnelId, rest: seq<TunnelId>)
    requires t !in rest
    ensures |Having(s.tasks, SlotIn([t] + rest))| == |Having(s.tasks, SlotOn(t))| + |Having(s.tasks, SlotIn(rest))|
  {
    HavingSplit(s.tasks, SlotIn([t] + rest), SlotOn(t), SlotIn(rest));
  }

  ghost predicate Full(s: State, t: TunnelId) {
    t in s.tunnels && s.tunnels[t].live >= STREAMS_PER_TUNNEL
  }

  /** Full tunnels are full of streams. */
  lemma {:induction false} FullTunnels(s: State, ids: seq<TunnelId>)
    requires SlotsOk(s) && Distinct(ids) && forall t | t in ids :: Full(s, t)
    ensures |Having(s.tasks, SlotIn(ids))| >= STREAMS_PER_TUNNEL * |ids|
  {
    if ids != [] {
      var t, rest := ids[0], ids[1..];
      assert t in ids && Full(s, t) && ids == [t] + rest;
      FullTunnels(s, rest);
      SlotsInSplit(s, t, rest);
    }
  }

  /** Who holds a slot on a pooled tunnel of `a` is bound for `a`. */
  lemma UsersAreBound(c: Config, s: State, a: Addr)
    requires TasksOk(c, s) && PoolOk(s, a)
    ensures Having(s.tasks, SlotIn(Pool(s, a))) <= Having(s.tasks, BoundFor(a))
  {
  }

  /** A task that finds every tunnel of its address at the soft cap is one connection too many for
      the tunnels there are. */
  lemma CrowdedOut(c: Config, s: State, x: TaskId)
    requires TasksOk(c, s) && SlotsOk(s) && x in s.tasks && Slot(s.tasks[x]).None?
    requires var a := s.tasks[x].addr;
             PoolOk(s, a) && forall t | t in Pool(s, a) :: Full(s, t)
    ensures STREAMS_PER_TUNNEL * |Pool(s, s.tasks[x].addr)| < Outstanding(s, s.tasks[x].addr)
  {
    var a := s.tasks[x].addr;
    FullTunnels(s, Pool(s, a));
    UsersAreBound(c, s, a);
    var users, bound := Having(s.tasks, SlotIn(Pool(s, a))), Having(s.tasks, BoundFor(a));
    assert x in bound && x !in users;
    RemoveOne(bound, x);
    CardinalityMonotone(users, bound - {x});
  }

  /** A lock holder that is not growing knows that nobody is. */
  lemma NobodyGrows(c: Config, s: State, x: TaskId)
    requires c.muxEnabled && TasksOk(c, s) && x in s.tasks && s.tasks[x].pc.Recheck?
    ensures Having(s.tasks, GrowingTo(s.tasks[x].addr)) == {}
  {
  }

  // ------------------------------------------------------- what scans have read

  /** Every load that has been read is still the load there is. */
  ghost predicate ReadsTrue(s: State) {
    forall x, i | x in s.tasks && 0 <= i < |s.tasks[x].read| :: s.tasks[x].read[i].1 == Live(s, s.tasks[x].read[i].0)
  }

  /** No scan of the tunnels of `a` has read a load at the soft cap. */
  ghost predicate ReadsBelow(s: State, a: Addr) {
    forall x, i | x in s.tasks && s.tasks[x].addr == a && 0 <= i < |s.tasks[x].read| ::
      s.tasks[x].read[i].1 < STREAMS_PER_TUNNEL
  }

  ghost predicate ReadsOk(c: Config, s: State, a: Addr) {
    if c.atomicScans then ReadsTrue(s) else ReadsBelow(s, a)
  }

  /** A scan that finds nothing has read every load at the cap. */
  lemma NonePicked(read: seq<(TunnelId, nat)>)
    requires PickRead(read, Some(STREAMS_PER_TUNNEL)).None?
    ensures forall i | 0 <= i < |read| :: read[i].1 >= STREAMS_PER_TUNNEL
  {
    forall i | 0 <= i < |read|
      ensures read[i].1 >= STREAMS_PER_TUNNEL
    {
      assert !Eligible(LoadsRead(read)[i], Some(STREAMS_PER_TUNNEL));
    }
  }

  lemma FruitlessAllFull(c: Config, s: State, x: TaskId)
    requires x in s.tasks && TaskOk(c, s, x) && PoolOk(s, s.tasks[x].addr) && ReadsOk(c, s, s.tasks[x].addr)
    requires Fruitless(s.tasks[x], ViewOf(c, s, s.tasks[x]))
    ensures forall t | t in Pool(s, s.tasks[x].addr) :: Full(s, t)
  {
    var pool, read := Pool(s, s.tasks[x].addr), s.tasks[x].read;
    NonePicked(read);
    forall t | t in pool
      ensures Full(s, t)
    {
      var i :| 0 <= i < |pool| && pool[i] == t;
      assert read[i].0 == t;
    }
  }

  /** A fruitless recheck finds room for one more tunnel among the first `k`. */
  lemma FruitlessHasRoom(c: Config, s: State, x: TaskId, k: nat)
    requires c.muxEnabled && TasksOk(c, s) && SlotsOk(s) && x in s.tasks && PoolOk(s, s.tasks[x].addr)
    requires ReadsOk(c, s, s.tasks[x].addr) && Fruitless(s.tasks[x], ViewOf(c, s, s.tasks[x]))
    requires Outstanding(s, s.tasks[x].addr) <= STREAMS_PER_TUNNEL * k
    ensures Having(s.tasks, GrowingTo(s.tasks[x].addr)) == {} && |Pool(s, s.tasks[x].addr)| < k
  {
    assert TaskOk(c, s, x);
    FruitlessAllFull(c, s, x);
    NobodyGrows(c, s, x);
    CrowdedOut(c, s, x);
  }

  /** The only tunnel of a peer with at most two hundred connections outstanding is not full when one of
      them has yet to reserve. */
  lemma LoneTunnelHasRoom(c: Config, s: State, x: TaskId)
    requires TasksOk(c, s) && SlotsOk(s) && x in s.tasks && Slot(s.tasks[x]).None? && PoolOk(s, s.tasks[x].addr)
    requires |Pool(s, s.tasks[x].addr)| == 1 && Outstanding(s, s.tasks[x].addr) <= STREAMS_PER_TUNNEL
    ensures Live(s, Pool(s, s.tasks[x].addr)[0]) < STREAMS_PER_TUNNEL
  {
    var pool := Pool(s, s.tasks[x].addr);
    if Live(s, pool[0]) >= STREAMS_PER_TUNNEL {
      forall t | t in pool
        ensures Full(s, t)
      {
        assert pool == [pool[0]];
      }
      CrowdedOut(c, s, x);
    }
  }

  /** A step either reads the next load, or ends the scan, or is no scan's. */
  predicate ReadFitsView(task: Task, v: View, e: Effect) {
    e.next.Some? && e.next.value.read != [] ==>
      && Scanning(task.pc) && |task.read| < |v.pool| && e.live.SameLive?
      && e.next.value.read == task.read + [(v.pool[|task.read|], v.load)]
  }

  lemma EffectReadFits(mux: bool, task: Task, v: View, answer: Answer, e: Effect)
    requires EffectOf(mux, task, v, answer) == Some(e) && (task.read != [] ==> Scanning(task.pc))
    ensures ReadFitsView(task, v, e)
  {
    if InStream(task.pc) {
      assert StreamStep(task, v, answer) == Some(e);
    } else if InEstablish(task.pc) {
      assert EstablishStep(task, v, answer) == Some(e);
    } else if Scanning(task.pc) {
      assert ScanStep(task, v) == Some(e);
    } else {
      assert LoopStep(mux, task, v) == Some(e);
    }
  }

  /** In a run with atomic scans the acting task alone may have read anything. */
  lemma TrueStep(c: Config, s: State, x: TaskId, e: Effect)
    requires x in s.tasks && ReadsTrue(s) && OnlyScan(s, x) && ReadFitsView(s.tasks[x], ViewOf(c, s, s.tasks[x]), e)
    requires s.nextTunnel !in s.tunnels && (e.next.Some? && e.next.value.read != [] ==> e.pool.SamePool?)
    ensures ReadsTrue(After(s, x, e))
  {
  }

  lemma BelowStep(c: Config, s: State, x: TaskId, e: Effect, a: Addr)
    requires x in s.tasks && ReadsBelow(s, a) && ReadFitsView(s.tasks[x], ViewOf(c, s, s.tasks[x]), e)
    requires e.next.Some? ==> e.next.value.addr == s.tasks[x].addr
    requires s.tasks[x].addr == a && |s.tasks[x].read| < |Pool(s, a)| && Scanning(s.tasks[x].pc) ==>
               Live(s, Pool(s, a)[|s.tasks[x].read|]) < STREAMS_PER_TUNNEL
    ensures ReadsBelow(After(s, x, e), a)
  {
  }

  ghost predicate GrowthInv(c: Config, s: State, a: Addr, k: nat) {
    GrowthWithin(s, a, k) && ReadsOk(c, s, a)
  }

  /** With at most one tunnel there is never a full one to read of. */
  lemma NextReadIsBelow(c: Config, s: State, x: TaskId, a: Addr, k: nat)
    requires Inv(c, s) && x in s.tasks && s.tasks[x].addr == a && Scanning(s.tasks[x].pc)
    requires |s.tasks[x].read| < |Pool(s, a)| <= k <= 1 && Outstanding(s, a) <= STREAMS_PER_TUNNEL * k
    ensures Live(s, Pool(s, a)[|s.tasks[x].read|]) < STREAMS_PER_TUNNEL
  {
    assert AddressOk(c, s, a);
    LoneTunnelHasRoom(c, s, x);
  }

  lemma ApplyReads(c: Config, s: State, x: TaskId, e: Effect, a: Addr, k: nat)
    requires Ready(c, s, x, e) && ReadFitsView(s.tasks[x], ViewOf(c, s, s.tasks[x]), e)
    requires GrowthInv(c, s, a, k) && Outstanding(s, a) <= STREAMS_PER_TUNNEL * k && (c.atomicScans || k <= 1)
    ensures ReadsOk(c, After(s, x, e), a)
  {
    if c.atomicScans {
      assert s.nextTunnel !in s.tunnels;
      TrueStep(c, s, x, e);
    } else {
      if s.tasks[x].addr == a && |s.tasks[x].read| < |Pool(s, a)| && Scanning(s.tasks[x].pc) {
        NextReadIsBelow(c, s, x, a, k);
      }
      BelowStep(c, s, x, e, a);
    }
  }

  lemma GrowthCount(c: Config, s: State, x: TaskId, e: Effect, a: Addr, k: nat)
    requires x in s.tasks && GrowFits(s.tasks[x], ViewOf(c, s, s.tasks[x]), e) && GrowthWithin(s, a, k)
    requires Distinct(Pool(s, a)) && (e.next.Some? ==> e.next.value.addr == s.tasks[x].addr)
    requires s.tasks[x].addr == a && Fruitless(s.tasks[x], ViewOf(c, s, s.tasks[x])) ==>
               Having(s.tasks, GrowingTo(a)) == {} && |Pool(s, a)| < k
    ensures GrowthWithin(After(s, x, e), a, k)
  {
    ApplyCount(c, s, x, e, GrowingTo(a));
    if s.tasks[x].addr == a && e.pool.Remove? {
      WithoutDistinct(Pool(s, a), e.pool.tunnel);
    }
  }

  lemma ApplyGrowth(c: Config, s: State, x: TaskId, e: Effect, a: Addr, k: nat)
    requires c.muxEnabled && (c.atomicScans || k <= 1) && Ready(c, s, x, e)
    requires GrowFits(s.tasks[x], ViewOf(c, s, s.tasks[x]), e) && ReadFitsView(s.tasks[x], ViewOf(c, s, s.tasks[x]), e)
    requires GrowthInv(c, s, a, k) && Outstanding(s, a) <= STREAMS_PER_TUNNEL * k
    ensures GrowthInv(c, After(s, x, e), a, k)
  {
    assert AddressOk(c, s, a);
    if s.tasks[x].addr == a && Fruitless(s.tasks[x], ViewOf(c, s, s.tasks[x])) {
      FruitlessHasRoom(c, s, x, k);
    }
    GrowthCount(c, s, x, e, a, k);
    ApplyReads(c, s, x, e, a, k);
  }

  lemma EndGrowFits(task: Task, v: View)
    ensures GrowFits(task, v, EndOf(task)) && ReadFitsView(task, v, EndOf(task))
  {
  }

  lemma GrowthTaskStep(c: Config, s: State, action: Action, s': State, a: Addr, k: nat)
    requires c.muxEnabled && (c.atomicScans || k <= 1) && Inv(c, s) && Next(c, s, action, s')
    requires (action.Run? || action.Leave?) && GrowthInv(c, s, a, k) && Outstanding(s, a) <= STREAMS_PER_TUNNEL * k
    ensures GrowthInv(c, s', a, k)
  {
    TaskActionReady(c, s, action, s');
    var x, e := action.task, EffectIn(c, s, action).value;
    if action.Run? {
      EffectGrowFits(s.tasks[x], ViewOf(c, s, s.tasks[x]), action.answer, e);
      EffectReadFits(true, s.tasks[x], ViewOf(c, s, s.tasks[x]), action.answer, e);
    } else {
      EndGrowFits(s.tasks[x], ViewOf(c, s, s.tasks[x]));
    }
    ApplyGrowth(c, s, x, e, a, k);
  }

  lemma GrowthOtherStep(c: Config, s: State, action: Action, s': State, a: Addr, k: nat)
    requires s.nextTask !in s.tasks && Distinct(Pool(s, a)) && Next(c, s, action, s')
    requires !action.Run? && !action.Leave? && GrowthInv(c, s, a, k)
    ensures GrowthInv(c, s', a, k)
  {
    if action.Spawn? {
      HavingPut(s.tasks, s.nextTask, Task(action.addr, 0, None, Start, []), GrowingTo(a));
    } else if action.DriverEvict? {
      WithoutDistinct(Pool(s, a), action.tunnel);
    }
  }

  lemma GrowthStep(c: Config, s: State, action: Action, s': State, a: Addr, k: nat)
    requires c.muxEnabled && (c.atomicScans || k <= 1) && Inv(c, s) && Next(c, s, action, s')
    requires GrowthInv(c, s, a, k) && Outstanding(s, a) <= STREAMS_PER_TUNNEL * k
    ensures GrowthInv(c, s', a, k)
  {
    if action.Run? || action.Leave? {
      GrowthTaskStep(c, s, action, s', a, k);
    } else {
      SpawnIsNew(c, s);
      assert AddressOk(c, s, a);
      GrowthOtherStep(c, s, action, s', a, k);
    }
  }

  /** At most `k` times two hundred connections to `a` are outstanding at any time before `n`. */
  ghost predicate OutstandingWithin(h: History, n: nat, a: Addr, k: nat)
    requires n <= |h.states|
  {
    forall i | 0 <= i < n :: Outstanding(h.states[i], a) <= 200 * k
  }

  lemma {:induction false} RunGrowth(c: Config, h: History, n: nat, a: Addr, k: nat)
    requires IsRun(c, h) && n < |h.states| && c.muxEnabled && OutstandingWithin(h, n, a, k)
    requires c.atomicScans || k <= 1
    ensures GrowthInv(c, h.states[n], a, k)
  {
    if n == 0 {
      assert Having(h.states[0].tasks, GrowingTo(a)) == {};
    } else {
      RunGrowth(c, h, n - 1, a, k);
      RunInv(c, h, n - 1);
      assert StepAt(c, h, n - 1);
      GrowthStep(c, h.states[n - 1], h.actions[n - 1], h.states[n], a, k);
    }
  }

  /** Handshake amortisation, for every interleaving: if at most 200k connections to a peer are
      outstanding at once, the pool and the handshakes under way never exceed k tunnels, and the whole
      run begins at most k handshakes beyond those that came to nothing or whose tunnel was evicted.
      For k up to 1 scans may interleave with anything; beyond that they are taken as atomic. */
  lemma HandshakesAmortise(c: Config, h: History, n: nat, a: Addr, k: nat)
    requires IsRun(c, h) && n < |h.states| && c.muxEnabled && OutstandingWithin(h, n, a, k)
    requires c.atomicScans || k <= 1
    ensures |Pool(h.states[n], a)| + |Having(h.states[n].tasks, ConnectingTo(a))| <= k
    ensures Count(h.states[n].handshakes, a) <= k + Count(h.states[n].losses, a)
  {
    var s := h.states[n];
    RunGrowth(c, h, n, a, k);
    RunInv(c, h, n);
    assert AddressOk(c, s, a);
    HavingSubset(s.tasks, ConnectingTo(a), GrowingTo(a));
  }

  // -------------------------------------------------------- runs without loss

  predicate CleanPc(pc: Pc) {
    !pc.Evicting? && (pc.Connected? ==> pc.mux)
  }

  predicate CleanAnswer(answer: Answer) {
    !answer.HandshakeFailed? && !answer.OpenFailed? && (answer.HandshakeOk? ==> answer.mux)
  }

  /** At `a`, and there only, the step goes well: the handshake succeeds and negotiates mux, the peer
      connected to is allowed, the stream opens, no tunnel dies and no task is cancelled while it connects. */
  ghost predicate CleanStep(c: Config, s: State, action: Action, a: Addr) {
    match action
    case Run(x, answer) =>
      x in s.tasks && s.tasks[x].addr == a ==>
        CleanAnswer(answer) && (s.tasks[x].pc.Connected? ==> Allowed(c, s, s.tasks[x].pc.peer))
    case Leave(x) => x in s.tasks && s.tasks[x].addr == a ==> !Connecting(s.tasks[x].pc)
    case DriverExit(t) => t in s.tunnels ==> s.tunnels[t].addr != a
    case _ => true
  }

  ghost predicate Clean(s: State, a: Addr) {
    && (forall t | t in s.tunnels && s.tunnels[t].addr == a :: s.tunnels[t].running)
    && (forall x | x in s.tasks && s.tasks[x].addr == a :: CleanPc(s.tasks[x].pc))
    && a !in s.losses
  }

  /** What a step leaves the tasks and tunnels of `a` with. */
  predicate CleanEffect(e: Effect) {
    !e.lost && !e.pool.Remove? && (e.next.Some? ==> CleanPc(e.next.value.pc))
  }

  lemma EffectClean(mux: bool, task: Task, v: View, answer: Answer, e: Effect)
    requires EffectOf(mux, task, v, answer) == Some(e) && CleanPc(task.pc) && CleanAnswer(answer)
    requires task.pc.Connected? ==> v.allowed
    ensures CleanEffect(e)
  {
    if InStream(task.pc) {
      assert StreamStep(task, v, answer) == Some(e);
    } else if InEstablish(task.pc) {
      assert EstablishStep(task, v, answer) == Some(e);
    } else if Scanning(task.pc) {
      assert ScanStep(task, v) == Some(e);
    } else {
      assert LoopStep(mux, task, v) == Some(e);
    }
  }

  lemma ApplyClean(s: State, x: TaskId, e: Effect, a: Addr)
    requires x in s.tasks && s.nextTunnel !in s.tunnels && Clean(s, a)
    requires e.next.Some? ==> e.next.value.addr == s.tasks[x].addr
    requires s.tasks[x].addr == a ==> CleanEffect(e)
    ensures Clean(After(s, x, e), a)
  {
  }

  lemma CleanTaskStep(c: Config, s: State, action: Action, s': State, a: Addr)
    requires Inv(c, s) && Clean(s, a) && CleanStep(c, s, action, a) && Next(c, s, action, s')
    requires action.Run? || action.Leave?
    ensures Clean(s', a)
  {
    TaskActionReady(c, s, action, s');
    var x, e := action.task, EffectIn(c, s, action).value;
    if action.Run? && s.tasks[x].addr == a {
      EffectClean(c.muxEnabled, s.tasks[x], ViewOf(c, s, s.tasks[x]), action.answer, e);
    }
    ApplyClean(s, x, e, a);
  }

  lemma CleanOtherStep(c: Config, s: State, action: Action, s': State, a: Addr)
    requires Clean(s, a) && CleanStep(c, s, action, a) && Next(c, s, action, s')
    requires !action.Run? && !action.Leave?
    ensures Clean(s', a)
  {
  }

  lemma CleanKept(c: Config, s: State, action: Action, s': State, a: Addr)
    requires Inv(c, s) && Clean(s, a) && CleanStep(c, s, action, a) && Next(c, s, action, s')
    ensures Clean(s', a)
  {
    if action.Run? || action.Leave? {
      CleanTaskStep(c, s, action, s', a);
    } else {
      CleanOtherStep(c, s, action, s', a);
    }
  }

  ghost predicate IsCleanRun(c: Config, h: History, a: Addr) {
    IsRun(c, h) && forall i | 0 <= i < |h.actions| :: CleanStep(c, h.states[i], h.actions[i], a)
  }

  /** Whatever happens at other addresses and to other peers, a run that goes well at `a` wastes no
      handshake with it and loses no tunnel of it. */
  lemma {:induction false} CleanRunLosesNothing(c: Config, h: History, n: nat, a: Addr)
    requires IsCleanRun(c, h, a) && n < |h.states|
    ensures Clean(h.states[n], a)
  {
    if n > 0 {
      CleanRunLosesNothing(c, h, n - 1, a);
      RunInv(c, h, n - 1);
      assert StepAt(c, h, n - 1);
      CleanKept(c, h.states[n - 1], h.actions[n - 1], h.states[n], a);
    }
  }

  /** So up to 200k outstanding connections to `a` share k handshakes. */
  lemma ConnectionsShareHandshakes(c: Config, h: History, n: nat, a: Addr, k: nat)
    requires IsCleanRun(c, h, a) && n < |h.states| && c.muxEnabled && OutstandingWithin(h, n, a, k)
    requires c.atomicScans || k <= 1
    ensures Count(h.states[n].handshakes, a) <= k
  {
    HandshakesAmortise(c, h, n, a, k);
    CleanRunLosesNothing(c, h, n, a);
  }

  /** Two hundred share one, however scans interleave. */
  lemma TwoHundredShareOneHandshake(c: Config, h: History, n: nat, a: Addr)
    requires IsCleanRun(c, h, a) && n < |h.states| && c.muxEnabled
    requires forall i | 0 <= i < n :: Outstanding(h.states[i], a) <= 200
    ensures Count(h.states[n].handshakes, a) <= 1
  {
    assert OutstandingWithin(h, n, a, 1);
    ConnectionsShareHandshakes(c, h, n, a, 1);
  }
}

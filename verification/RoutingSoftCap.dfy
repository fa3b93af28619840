/** How far a tunnel can run over its soft cap. */
module RoutingSoftCap {
  import opened ByteStrings
  import opened Counting
  import opened MuxPools
  import opened Routing
  import opened RoutingInvariants

  /** The tunnel a task has picked and not yet reserved a slot on. */
  function Picked(pc: Pc): Option<TunnelId> {
    if pc.Check? || pc.Unlock? || pc.Reserve? then Some(pc.tunnel) else None
  }

  ghost function PickedOn(t: TunnelId): Task -> bool {
    (k: Task) => Picked(k.pc) == Some(t)
  }

  /** A scan has read of a load of `t` below the soft cap. */
  predicate SawRoom(read: seq<(TunnelId, nat)>, t: TunnelId) {
    exists i | 0 <= i < |read| :: read[i].0 == t && read[i].1 < STREAMS_PER_TUNNEL
  }

  /** The task has picked `t`, or its scan under way may still pick it for its spare capacity. */
  predicate Drawn(k: Task, t: TunnelId) {
    Picked(k.pc) == Some(t) || SawRoom(k.read, t)
  }

  ghost function DrawnTo(t: TunnelId): Task -> bool {
    (k: Task) => Drawn(k, t)
  }

  /** The task is inside a routing call to `a`. */
  ghost function RoutingTo(a: Addr): Task -> bool {
    (k: Task) => k.addr == a && !k.pc.Routed?
  }

  predicate OverCap(pc: Pc) {
    pc.AtCap? || pc.PickAny?
  }

  /** Streams on `t` plus tasks drawn to it that are still on their way. */
  ghost function Demand(s: State, t: TunnelId): nat {
    Live(s, t) + |Having(s.tasks, DrawnTo(t))|
  }

  ghost predicate SoftWithin(s: State, a: Addr, k: nat) {
    && (forall x | x in s.tasks && s.tasks[x].addr == a :: !OverCap(s.tasks[x].pc))
    && (forall t | t in s.tunnels && s.tunnels[t].addr == a :: Demand(s, t) <= STREAMS_PER_TUNNEL - 1 + k)
  }

  predicate DrawnAfter(e: Effect, t: TunnelId) {
    e.next.Some? && Drawn(e.next.value, t)
  }

  /** The step reads a load of `t` below the cap. */
  predicate SeesRoom(task: Task, v: View, t: TunnelId) {
    |task.read| < |v.pool| && v.pool[|task.read|] == t && v.load < STREAMS_PER_TUNNEL
  }

  /** Reserving turns a pick into a stream; a task is newly drawn to a tunnel it sees below the cap, or
      to its own. */
  predicate DrawFits(task: Task, v: View, e: Effect, t: TunnelId) {
    && (e.live == Inc(t) ==> Drawn(task, t) && !DrawnAfter(e, t))
    && (DrawnAfter(e, t) && !Drawn(task, t) ==>
          || SeesRoom(task, v, t)
          || (e.pool.Join? && t == v.newTunnel)
          || task.pc.PickAny?)
    && (e.next.Some? && OverCap(e.next.value.pc) ==> OverCap(task.pc) || !v.canGrow)
    && (e.next.Some? ==> e.next.value.addr == task.addr)
  }

  lemma StreamDrawFits(task: Task, v: View, answer: Answer, e: Effect, t: TunnelId)
    requires task.read == [] && StreamStep(task, v, answer) == Some(e)
    ensures DrawFits(task, v, e, t)
  {
  }

  lemma EstablishDrawFits(task: Task, v: View, answer: Answer, e: Effect, t: TunnelId)
    requires task.read == [] && EstablishStep(task, v, answer) == Some(e)
    ensures DrawFits(task, v, e, t)
  {
  }

  lemma LoopDrawFits(mux: bool, task: Task, v: View, e: Effect, t: TunnelId)
    requires task.read == [] && LoopStep(mux, task, v) == Some(e)
    ensures DrawFits(task, v, e, t)
  {
  }

  lemma ReadDrawFits(task: Task, v: View, t: TunnelId)
    requires Scanning(task.pc) && |task.read| < |v.pool|
    ensures DrawFits(task, v, ReadStep(task, v), t)
  {
    var read := task.read + [(v.pool[|task.read|], v.load)];
    if i :| 0 <= i < |read| && read[i].0 == t && read[i].1 < STREAMS_PER_TUNNEL {
      assert i < |task.read| ==> task.read[i] == read[i];
    }
  }

  /** What a scan picks for its spare capacity it has seen. */
  lemma PickWasSeen(read: seq<(TunnelId, nat)>)
    ensures PickRead(read, Some(STREAMS_PER_TUNNEL)).Some? ==>
              SawRoom(read, PickRead(read, Some(STREAMS_PER_TUNNEL)).value)
  {
    var least := Least(LoadsRead(read), Some(STREAMS_PER_TUNNEL));
    if least.Some? {
      assert read[least.value].1 == LoadsRead(read)[least.value];
    }
  }

  lemma PickDrawFits(task: Task, v: View, e: Effect, t: TunnelId)
    requires Scanning(task.pc) && PickStep(task) == Some(e)
    ensures DrawFits(task, v, e, t)
  {
    PickWasSeen(task.read);
  }

  lemma EffectDrawFits(mux: bool, task: Task, v: View, answer: Answer, e: Effect, t: TunnelId)
    requires EffectOf(mux, task, v, answer) == Some(e) && (task.read != [] ==> Scanning(task.pc))
    ensures DrawFits(task, v, e, t)
  {
    if InStream(task.pc) {
      StreamDrawFits(task, v, answer, e, t);
    } else if InEstablish(task.pc) {
      EstablishDrawFits(task, v, answer, e, t);
    } else if !Scanning(task.pc) {
      LoopDrawFits(mux, task, v, e, t);
    } else if |task.read| < |v.pool| {
      ReadDrawFits(task, v, t);
    } else {
      PickDrawFits(task, v, e, t);
    }
  }

  lemma EndDrawFits(task: Task, v: View, t: TunnelId)
    ensures DrawFits(task, v, EndOf(task), t)
  {
  }

  /** The demand on a tunnel grows only by a task newly drawn to it. */
  lemma DemandStep(c: Config, s: State, x: TaskId, v: View, e: Effect, t: TunnelId)
    requires x in s.tasks && SlotFits(s.tasks[x], e) && DrawFits(s.tasks[x], v, e, t) && s.nextTunnel !in s.tunnels
    requires t in s.tunnels && (e.live == Dec(t) ==> s.tunnels[t].live > 0)
    ensures !DrawnAfter(e, t) || Drawn(s.tasks[x], t) ==> Demand(After(s, x, e), t) <= Demand(s, t)
    ensures DrawnAfter(e, t) && !Drawn(s.tasks[x], t) ==> Live(After(s, x, e), t) <= Live(s, t)
  {
    ApplyCount(c, s, x, e, DrawnTo(t));
    SlotStep(s, x, e, t);
  }

  /** Every task drawn to `t` is routing to its address. */
  lemma DrawnRoute(c: Config, s: State, t: TunnelId)
    requires TasksOk(c, s) && AddressesOk(c, s) && t in s.tunnels
    ensures |Having(s.tasks, DrawnTo(t))| <= |Having(s.tasks, RoutingTo(s.tunnels[t].addr))|
  {
    forall y | y in Having(s.tasks, DrawnTo(t))
      ensures y in Having(s.tasks, RoutingTo(s.tunnels[t].addr))
    {
      assert TaskOk(c, s, y) && AddressOk(c, s, s.tasks[y].addr);
      if SawRoom(s.tasks[y].read, t) {
        assert t in Pool(s, s.tasks[y].addr);
      }
    }
    CardinalityMonotone(Having(s.tasks, DrawnTo(t)), Having(s.tasks, RoutingTo(s.tunnels[t].addr)));
  }

  lemma NewTunnelIsEmpty(s: State, x: TaskId, e: Effect, t: TunnelId)
    requires x in s.tasks && t in After(s, x, e).tunnels && t !in s.tunnels
    ensures Live(After(s, x, e), t) == 0
  {
  }

  /** A task newly drawn to a tunnel of its address that was there before found it below the cap. */
  lemma DrawIsUnderCap(c: Config, s: State, x: TaskId, e: Effect, t: TunnelId)
    requires x in s.tasks && s.nextTunnel !in s.tunnels && DrawFits(s.tasks[x], ViewOf(c, s, s.tasks[x]), e, t)
    requires DrawnAfter(e, t) && !Drawn(s.tasks[x], t) && t in s.tunnels && !OverCap(s.tasks[x].pc)
    ensures Live(s, t) < STREAMS_PER_TUNNEL
  {
  }

  /** A task is drawn only to tunnels of its own address. */
  lemma DrawnIsBound(c: Config, s: State, x: TaskId, e: Effect, t: TunnelId)
    requires Ready(c, s, x, e) && DrawFits(s.tasks[x], ViewOf(c, s, s.tasks[x]), e, t)
    requires DrawnAfter(e, t) && !Drawn(s.tasks[x], t) && t in s.tunnels
    ensures s.tunnels[t].addr == s.tasks[x].addr
  {
    assert AddressOk(c, s, s.tasks[x].addr) && s.nextTunnel !in s.tunnels;
    if Picked(e.next.value.pc) == Some(t) {
      MentionedExists(c, s, x, e);
    } else {
      assert Aligned(e.next.value.read, Pool(s, s.tasks[x].addr));
      assert t in Pool(s, s.tasks[x].addr);
    }
  }

  lemma SoftDemand(c: Config, s: State, x: TaskId, e: Effect, k: nat, t: TunnelId)
    requires Ready(c, s, x, e) && DrawFits(s.tasks[x], ViewOf(c, s, s.tasks[x]), e, t)
    requires t in s.tunnels && Demand(s, t) <= STREAMS_PER_TUNNEL - 1 + k
    requires s.tasks[x].addr == s.tunnels[t].addr ==> !OverCap(s.tasks[x].pc)
    requires |Having(After(s, x, e).tasks, DrawnTo(t))| <= k
    ensures Demand(After(s, x, e), t) <= STREAMS_PER_TUNNEL - 1 + k
  {
    assert s.nextTunnel !in s.tunnels;
    if e.live == Dec(t) {
      SlotIsLive(c, s, x);
    }
    DemandStep(c, s, x, ViewOf(c, s, s.tasks[x]), e, t);
    if DrawnAfter(e, t) && !Drawn(s.tasks[x], t) {
      DrawnIsBound(c, s, x, e, t);
      DrawIsUnderCap(c, s, x, e, t);
    }
  }

  /** The step as the effect of one action fits every tunnel. */
  ghost predicate AllDrawFit(c: Config, s: State, x: TaskId, e: Effect)
    requires x in s.tasks
  {
    forall t :: DrawFits(s.tasks[x], ViewOf(c, s, s.tasks[x]), e, t)
  }

  lemma ApplySoft(c: Config, s: State, x: TaskId, e: Effect, a: Addr, k: nat)
    requires Ready(c, s, x, e) && AllDrawFit(c, s, x, e)
    requires SoftWithin(s, a, k) && |Pool(s, a)| < MAX_TUNNELS_PER_PEER
    requires |Having(After(s, x, e).tasks, RoutingTo(a))| <= k
    ensures SoftWithin(After(s, x, e), a, k)
  {
    var s' := After(s, x, e);
    ApplyInv(c, s, x, e);
    ApplyEvolves(c, s, x, e);
    assert DrawFits(s.tasks[x], ViewOf(c, s, s.tasks[x]), e, 0);
    forall t | t in s'.tunnels && s'.tunnels[t].addr == a
      ensures Demand(s', t) <= STREAMS_PER_TUNNEL - 1 + k
    {
      DrawnRoute(c, s', t);
      if t in s.tunnels {
        assert DrawFits(s.tasks[x], ViewOf(c, s, s.tasks[x]), e, t);
        SoftDemand(c, s, x, e, k, t);
      } else {
        NewTunnelIsEmpty(s, x, e, t);
      }
    }
  }

  lemma SoftTaskStep(c: Config, s: State, action: Action, s': State, a: Addr, k: nat)
    requires Inv(c, s) && Next(c, s, action, s') && (action.Run? || action.Leave?) && SoftWithin(s, a, k)
    requires |Pool(s, a)| < MAX_TUNNELS_PER_PEER && |Having(s'.tasks, RoutingTo(a))| <= k
    ensures SoftWithin(s', a, k)
  {
    TaskActionReady(c, s, action, s');
    var x, e := action.task, EffectIn(c, s, action).value;
    forall t
      ensures DrawFits(s.tasks[x], ViewOf(c, s, s.tasks[x]), e, t)
    {
      if action.Run? {
        EffectDrawFits(c.muxEnabled, s.tasks[x], ViewOf(c, s, s.tasks[x]), action.answer, e, t);
      } else {
        EndDrawFits(s.tasks[x], ViewOf(c, s, s.tasks[x]), t);
      }
    }
    ApplySoft(c, s, x, e, a, k);
  }

  lemma SoftStep(c: Config, s: State, action: Action, s': State, a: Addr, k: nat)
    requires Inv(c, s) && Next(c, s, action, s') && SoftWithin(s, a, k)
    requires |Pool(s, a)| < MAX_TUNNELS_PER_PEER && |Having(s'.tasks, RoutingTo(a))| <= k
    ensures SoftWithin(s', a, k)
  {
    match action
    case Run(_, _) => SoftTaskStep(c, s, action, s', a, k);
    case Leave(_) => SoftTaskStep(c, s, action, s', a, k);
    case Spawn(b) => SpawnSoft(c, s, b, s', a, k);
    case _ => DriverSoft(c, s, action, s', a, k);
  }

  lemma DriverSoft(c: Config, s: State, action: Action, s': State, a: Addr, k: nat)
    requires (action.DriverExit? || action.DriverEvict? || action.ChangePolicy?) && Next(c, s, action, s')
    requires SoftWithin(s, a, k)
    ensures SoftWithin(s', a, k)
  {
  }

  lemma SpawnSoft(c: Config, s: State, b: Addr, s': State, a: Addr, k: nat)
    requires TasksOk(c, s) && Next(c, s, Spawn(b), s') && SoftWithin(s, a, k)
    ensures SoftWithin(s', a, k)
  {
    SpawnIsNew(c, s);
    forall t | t in s'.tunnels && s'.tunnels[t].addr == a
      ensures Demand(s', t) <= STREAMS_PER_TUNNEL - 1 + k
    {
      HavingPut(s.tasks, s.nextTask, Task(b, 0, None, Start, []), DrawnTo(t));
    }
  }

  /** Up to state `n`, the pool of `a` has stayed below the hard cap and at most `k` routing calls to
      `a` overlapped. */
  ghost predicate Overlapping(h: History, n: nat, a: Addr, k: nat)
    requires n < |h.states|
  {
    && (forall i | 0 <= i < n :: |Pool(h.states[i], a)| < 16)
    && (forall i | 0 <= i <= n :: |Having(h.states[i].tasks, RoutingTo(a))| <= k)
  }

  lemma {:induction false} RunSoft(c: Config, h: History, n: nat, a: Addr, k: nat)
    requires IsRun(c, h) && n < |h.states| && Overlapping(h, n, a, k)
    ensures SoftWithin(h.states[n], a, k)
  {
    if n > 0 {
      RunSoft(c, h, n - 1, a, k);
      RunInv(c, h, n - 1);
      assert StepAt(c, h, n - 1);
      SoftStep(c, h.states[n - 1], h.actions[n - 1], h.states[n], a, k);
    }
  }

  /** The soft cap is overshot by at most the overlap: while a peer stays below sixteen tunnels and at
      most `k` routing calls to it overlap, streams plus picks on the way on each of its tunnels never
      exceed 199 + k.  Calls that do not overlap (k = 1) never exceed 200. */
  lemma SoftCapOvershoot(c: Config, h: History, n: nat, a: Addr, k: nat, t: TunnelId)
    requires IsRun(c, h) && n < |h.states| && Overlapping(h, n, a, k)
    requires t in Pool(h.states[n], a)
    ensures Live(h.states[n], t) + |Having(h.states[n].tasks, PickedOn(t))| <= 199 + k
  {
    RunSoft(c, h, n, a, k);
    RunInv(c, h, n);
    assert AddressOk(c, h.states[n], a);
    HavingSubset(h.states[n].tasks, PickedOn(t), DrawnTo(t));
  }
}

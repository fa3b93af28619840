/** What holds along every run of the routing system. */
module RoutingTheorems {
  import opened ByteStrings
  import opened Counting
  import opened MuxPools
  import opened Routing
  import opened RoutingInvariants

  // ------------------------------------------------------------- the hard cap

  /** With mux enabled no address ever has more than sixteen tunnels, whatever the interleaving of
      routing, registration, driver exit, eviction and cancellation. */
  lemma AtMostSixteenTunnels(c: Config, h: History, n: nat, a: Addr)
    requires IsRun(c, h) && n < |h.states| && c.muxEnabled
    ensures |Pool(h.states[n], a)| + |Having(h.states[n].tasks, ConnectingTo(a))| <= 16
  {
    RunInv(c, h, n);
    assert AddressOk(c, h.states[n], a);
  }

  // ------------------------------------------------------- slot conservation

  /** The live counters of the first `n` tunnels, added up. */
  ghost function SumLive(s: State, n: nat): nat {
    if n == 0 then 0 else SumLive(s, n - 1) + Live(s, n - 1)
  }

  /** The task holds a slot on one of the first `n` tunnels. */
  ghost function SlotBelow(n: nat): Task -> bool {
    (k: Task) => Slot(k).Some? && Slot(k).value < n
  }

  lemma {:induction false} SumIsSlots(c: Config, s: State, n: nat)
    requires TasksOk(c, s) && SlotsOk(s)
    ensures SumLive(s, n) == |Having(s.tasks, SlotBelow(n))|
  {
    if n == 0 {
      assert Having(s.tasks, SlotBelow(0)) == {};
    } else {
      SumIsSlots(c, s, n - 1);
      SlotsSplit(s, n - 1);
      if n - 1 !in s.tunnels {
        NoSlotOnUnknown(c, s, n - 1);
      }
    }
  }

  lemma SlotsSplit(s: State, n: nat)
    ensures |Having(s.tasks, SlotBelow(n + 1))| == |Having(s.tasks, SlotBelow(n))| + |Having(s.tasks, SlotOn(n))|
  {
    var below, here := Having(s.tasks, SlotBelow(n)), Having(s.tasks, SlotOn(n));
    assert Having(s.tasks, SlotBelow(n + 1)) == below + here && below !! here;
  }

  /** In every state of every run each live counter equals the opens past reservation plus the streams
      not yet dropped, and all counters together stay within the connection permits in use. */
  lemma StreamSlotsAreConserved(c: Config, h: History, n: nat)
    requires IsRun(c, h) && n < |h.states|
    ensures var s := h.states[n];
            && (forall t | t in s.tunnels :: s.tunnels[t].live == |Having(s.tasks, SlotOn(t))|)
            && (forall t | t in s.tunnels :: t < s.nextTunnel)
            && SumLive(s, s.nextTunnel) <= |s.tasks| <= c.maxConnections
  {
    RunInv(c, h, n);
    var s := h.states[n];
    SumIsSlots(c, s, s.nextTunnel);
    CardinalityMonotone(Having(s.tasks, SlotBelow(s.nextTunnel)), s.tasks.Keys);
    assert |s.tasks| == |s.tasks.Keys|;
  }

  /** Giving a slot back never finds the counter at zero. */
  lemma CountersNeverUnderflow(c: Config, h: History, n: nat)
    requires IsRun(c, h) && n < |h.actions| && (h.actions[n].Run? || h.actions[n].Leave?)
    ensures var s, e := h.states[n], EffectIn(c, h.states[n], h.actions[n]);
            e.Some? && (e.value.live.Dec? ==>
              && e.value.live.tunnel in s.tunnels && s.tunnels[e.value.live.tunnel].live > 0
              && Live(h.states[n + 1], e.value.live.tunnel) == Live(s, e.value.live.tunnel) - 1)
  {
    RunInv(c, h, n);
    assert StepAt(c, h, n);
    TaskActionReady(c, h.states[n], h.actions[n], h.states[n + 1]);
    if EffectIn(c, h.states[n], h.actions[n]).value.live.Dec? {
      SlotIsLive(c, h.states[n], h.actions[n].task);
    }
  }

  // ----------------------------------------------------------------- eviction

  /** The change an action makes to the pool of `a`. */
  ghost function ChangeAt(c: Config, s: State, action: Action, a: Addr): PoolChange {
    match action
    case DriverEvict(t) => if t in s.tunnels && s.tunnels[t].addr == a then Remove(t) else SamePool
    case Run(x, answer) =>
      var e := EffectIn(c, s, action);
      if x in s.tasks && s.tasks[x].addr == a && e.Some? then e.value.pool else SamePool
    case _ => SamePool
  }

  /** A pool changes by one registration at its end under a new id, or by losing one tunnel. */
  lemma PoolStep(c: Config, s: State, action: Action, s': State, a: Addr)
    requires Next(c, s, action, s')
    ensures Pool(s', a) == PoolAfter(s, a, ChangeAt(c, s, action, a))
  {
  }

  /** The tunnel an eviction step names. */
  function EvictsNow(s: State, action: Action): Option<TunnelId> {
    match action
    case DriverEvict(t) => Some(t)
    case Run(x, _) => if x in s.tasks && s.tasks[x].pc.Evicting? then Some(s.tasks[x].pc.tunnel) else None
    case _ => None
  }

  lemma RemoveOnlyWhenEvicting(mux: bool, task: Task, v: View, answer: Answer, e: Effect)
    requires EffectOf(mux, task, v, answer) == Some(e) && e.pool.Remove?
    ensures task.pc.Evicting? && e.pool.tunnel == task.pc.tunnel
  {
  }

  /** Every pooled tunnel but the one an eviction names stays pooled, so a driver or a failing opener
      of an old tunnel never removes its replacement. */
  lemma EvictionRemovesOnlyItsTunnel(c: Config, s: State, action: Action, s': State, a: Addr, t: TunnelId)
    requires Next(c, s, action, s') && t in Pool(s, a) && EvictsNow(s, action) != Some(t)
    ensures t in Pool(s', a)
  {
    PoolStep(c, s, action, s', a);
    if action.Run? && ChangeAt(c, s, action, a).Remove? {
      var task := s.tasks[action.task];
      RemoveOnlyWhenEvicting(c.muxEnabled, task, ViewOf(c, s, task), action.answer, EffectIn(c, s, action).value);
    }
  }

  /** And that one does leave: a tunnel that failed an opener, or whose driver is through, is out of the pool
      behind the eviction. */
  lemma EvictionTakesEffect(c: Config, s: State, action: Action, s': State, t: TunnelId)
    requires Inv(c, s) && Next(c, s, action, s') && EvictsNow(s, action) == Some(t)
    ensures t in s.tunnels && t !in Pool(s', s.tunnels[t].addr)
  {
    if action.Run? {
      assert TaskOk(c, s, action.task);
    }
    PoolStep(c, s, action, s', s.tunnels[t].addr);
  }

  lemma TunnelsRemain(c: Config, s: State, action: Action, s': State)
    requires Inv(c, s) && Next(c, s, action, s')
    ensures forall t | t in s.tunnels :: t in s'.tunnels && t != s.nextTunnel
  {
    if action.Run? || action.Leave? {
      TaskActionReady(c, s, action, s');
      ApplyEvolves(c, s, action.task, EffectIn(c, s, action).value);
    } else if !action.Spawn? {
      DriverEvolves(c, s, action, s');
    }
  }

  /** Once a registered tunnel is out of its pool it never returns. */
  lemma {:induction false} EvictedForGood(c: Config, h: History, i: nat, j: nat, a: Addr, t: TunnelId)
    requires IsRun(c, h) && i <= j < |h.states|
    requires t in h.states[i].tunnels && t !in Pool(h.states[i], a)
    ensures t in h.states[j].tunnels && t !in Pool(h.states[j], a)
    decreases j
  {
    if i < j {
      EvictedForGood(c, h, i, j - 1, a, t);
      RunInv(c, h, j - 1);
      assert StepAt(c, h, j - 1);
      GoneStaysGone(c, h.states[j - 1], h.actions[j - 1], h.states[j], a, t);
    }
  }

  /** So no scan that is under way or starts later picks it. */
  lemma NeverPickedAgain(c: Config, h: History, i: nat, j: nat, t: TunnelId, x: TaskId, cap: Option<nat>)
    requires IsRun(c, h) && i <= j < |h.states| && x in h.states[j].tasks
    requires t in h.states[i].tunnels && t !in Pool(h.states[i], h.states[j].tasks[x].addr)
    ensures PickRead(h.states[j].tasks[x].read, cap) != Some(t)
  {
    var s, a := h.states[j], h.states[j].tasks[x].addr;
    EvictedForGood(c, h, i, j, a, t);
    RunInv(c, h, j);
    assert TaskOk(c, s, x);
    if s.tasks[x].read != [] {
      PickIsRead(s.tasks[x].read, cap, Pool(s, a));
    }
  }

  lemma GoneStaysGone(c: Config, s: State, action: Action, s': State, a: Addr, t: TunnelId)
    requires Inv(c, s) && Next(c, s, action, s') && t in s.tunnels && t !in Pool(s, a)
    ensures t in s'.tunnels && t !in Pool(s', a)
  {
    TunnelsRemain(c, s, action, s');
    PoolStep(c, s, action, s', a);
  }
}

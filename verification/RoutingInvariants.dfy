/** What every step of the routing system keeps. */
module RoutingInvariants {
  import opened ByteStrings
  import opened Counting
  import opened SpiffeIds
  import opened Policies
  import opened MuxPools
  import opened Routing

  // ----------------------------------------------------------- sets of tasks

  /** The task holds a reserved slot on `t`. */
  ghost function SlotOn(t: TunnelId): Task -> bool {
    (k: Task) => Slot(k) == Some(t)
  }

  /** The task has a TLS connection to `a` under way. */
  ghost function ConnectingTo(a: Addr): Task -> bool {
    (k: Task) => k.addr == a && Connecting(k.pc)
  }

  // --------------------------------------------------------------- invariants

  /** The tunnel a program counter speaks of. */
  function Mentioned(pc: Pc): Option<TunnelId> {
    if InStream(pc) || pc.Unlock? then Some(pc.tunnel)
    else if pc.Finish? || pc.Routed? then Carried(pc.route)
    else None
  }

  /** The tunnel a task is opening or has opened a stream on. */
  function UsesTunnel(pc: Pc): Option<TunnelId> {
    if pc.Reserve? || pc.Opening? then Some(pc.tunnel)
    else if pc.Finish? || pc.Routed? then Carried(pc.route)
    else None
  }

  /** The peer of a connection that a task registers or relays over. */
  function UsesPeer(pc: Pc): Option<SpiffeId> {
    if pc.Register? then Some(pc.peer)
    else if (pc.Finish? || pc.Routed?) && pc.route.Legacy? then Some(pc.route.peer)
    else None
  }

  /** Reached only with the creation lock held, if mux is enabled. */
  predicate UnderLock(pc: Pc) {
    pc.Recheck? || pc.Unlock? || pc.Grow? || pc.AtCap? || Connecting(pc)
  }

  /** Reached only without it. */
  predicate LockFree(pc: Pc) {
    || pc.Start? || pc.Pick? || pc.Check? || pc.FindLock? || pc.WaitLock? || pc.PickAny? || pc.Routed?
    || (pc.Reserve? && !pc.own) || (pc.Opening? && !pc.own) || (pc.Evicting? && !pc.own)
  }

  /** A scan has read a first part of the list, which is still as it was. */
  predicate Aligned(read: seq<(TunnelId, nat)>, pool: seq<TunnelId>) {
    |read| <= |pool| && forall i | 0 <= i < |read| :: read[i].0 == pool[i]
  }

  ghost predicate ReadOk(s: State, task: Task) {
    task.read != [] ==> Scanning(task.pc) && Aligned(task.read, Pool(s, task.addr))
  }

  ghost predicate TaskOk(c: Config, s: State, x: TaskId)
    requires x in s.tasks
  {
    var task := s.tasks[x];
    && x < s.nextTask && task.attempt < ATTEMPTS && ReadOk(s, task)
    && (Mentioned(task.pc).Some? ==>
          Mentioned(task.pc).value in s.tunnels && s.tunnels[Mentioned(task.pc).value].addr == task.addr)
    && (task.guard.Some? ==>
          && task.addr in s.creating && s.creating[task.addr] == task.guard.value
          && task.guard.value in s.holder && s.holder[task.guard.value] == x)
    && (task.pc.WaitLock? ==> task.addr in s.creating && s.creating[task.addr] == task.pc.lock)
    && (c.muxEnabled && UnderLock(task.pc) ==> task.guard.Some?)
    && (LockFree(task.pc) ==> task.guard.None?)
    && (UsesTunnel(task.pc).Some? ==> (x, s.tunnels[UsesTunnel(task.pc).value].peer) in s.approved)
    && (UsesPeer(task.pc).Some? ==> (x, UsesPeer(task.pc).value) in s.approved)
  }

  ghost predicate TasksOk(c: Config, s: State) {
    forall x | x in s.tasks :: TaskOk(c, s, x)
  }

  ghost predicate PoolOk(s: State, a: Addr) {
    && Distinct(Pool(s, a))
    && forall t | t in Pool(s, a) :: t in s.tunnels && s.tunnels[t].addr == a
  }

  /** Ids are never reused, and every tunnel ever registered was allowed to its creator. */
  ghost predicate TunnelsOk(s: State) {
    forall t | t in s.tunnels :: t < s.nextTunnel && (s.tunnels[t].creator, s.tunnels[t].peer) in s.approved
  }

  /** One lock per address, held by at most one task, which knows it. */
  ghost predicate LocksOk(s: State) {
    && (forall a | a in s.creating :: s.creating[a] < s.nextLock)
    && (forall a, b | a in s.creating && b in s.creating && s.creating[a] == s.creating[b] :: a == b)
    && (forall l | l in s.holder :: s.holder[l] in s.tasks && s.tasks[s.holder[l]].guard == Some(l))
  }

  /** Stream slots are conserved. */
  ghost predicate SlotsOk(s: State) {
    forall t | t in s.tunnels :: s.tunnels[t].live == |Having(s.tasks, SlotOn(t))|
  }

  /** Every handshake begun is under way, has its tunnel in the pool, or was lost. */
  ghost predicate ConservedAt(s: State, a: Addr) {
    Count(s.handshakes, a) == |Pool(s, a)| + |Having(s.tasks, ConnectingTo(a))| + Count(s.losses, a)
  }

  /** Pool and connections under way together stay within the hard cap. */
  ghost predicate CapAt(s: State, a: Addr) {
    |Pool(s, a)| + |Having(s.tasks, ConnectingTo(a))| <= MAX_TUNNELS_PER_PEER
  }

  /** What the invariant says of the address `a`. */
  ghost predicate AddressOk(c: Config, s: State, a: Addr) {
    PoolOk(s, a) && ConservedAt(s, a) && (c.muxEnabled ==> CapAt(s, a))
  }

  ghost predicate AddressesOk(c: Config, s: State) {
    forall a :: AddressOk(c, s, a)
  }

  ghost predicate Inv(c: Config, s: State) {
    && TasksOk(c, s) && TunnelsOk(s) && LocksOk(s) && SlotsOk(s) && AddressesOk(c, s)
    && |s.tasks| <= c.maxConnections
  }

  lemma InitInv(c: Config, s: State)
    requires Init(s)
    ensures Inv(c, s)
  {
  }

  /** A reserved slot is counted, so giving it back cannot underflow the counter. */
  lemma SlotIsLive(c: Config, s: State, x: TaskId)
    requires TasksOk(c, s) && SlotsOk(s) && x in s.tasks && Slot(s.tasks[x]).Some?
    ensures Slot(s.tasks[x]).value in s.tunnels && Live(s, Slot(s.tasks[x]).value) > 0
  {
    assert TaskOk(c, s, x);
    assert x in Having(s.tasks, SlotOn(Slot(s.tasks[x]).value));
  }

  // ------------------------------------------------- effects fit their tasks

  function SlotAfter(e: Effect): Option<TunnelId> {
    if e.next.Some? then Slot(e.next.value) else None
  }

  function GuardAfter(e: Effect): Option<LockId> {
    if e.next.Some? then e.next.value.guard else None
  }

  predicate ConnectingAfter(e: Effect) {
    e.next.Some? && Connecting(e.next.value.pc)
  }

  /** The counter moves exactly with the slot. */
  predicate SlotFits(task: Task, e: Effect) {
    match e.live
    case SameLive => Slot(task) == SlotAfter(e)
    case Inc(t) => Slot(task) == None && SlotAfter(e) == Some(t) && !e.pool.Join?
    case Dec(t) => Slot(task) == Some(t) && SlotAfter(e) == None && !e.pool.Join?
  }

  /** The lock moves exactly with the guard. */
  predicate HoldFits(task: Task, e: Effect) {
    match e.hold
    case SameHold => GuardAfter(e) == task.guard
    case Take(l) => task.guard == None && GuardAfter(e) == Some(l) && task.pc == WaitLock(l)
    case Release(l) => task.guard == Some(l) && GuardAfter(e) == None
  }

  /** A handshake begins a connection, and a connection ends by joining the pool or being lost. */
  predicate ConnectionFits(task: Task, e: Effect) {
    && One(Connecting(task.pc)) + One(e.handshake) == One(ConnectingAfter(e)) + One(e.lost) + One(e.pool.Join?)
    && !(e.lost && e.pool.Remove?) && (e.handshake ==> e.pool.SamePool?)
  }

  /** Locks are taken and dropped, and growth happens, where the source says. */
  predicate LockFits(mux: bool, task: Task, v: View, e: Effect) {
    && (e.hold.Take? ==> v.free)
    && (mux && e.handshake ==> task.pc.Grow? && task.guard.Some? && v.canGrow)
    && (e.next.Some? && e.next.value.pc.WaitLock? ==>
          if e.newLock then v.lock.None? && e.next.value.pc.lock == v.newLock
          else v.lock == Some(e.next.value.pc.lock))
    && (e.newLock ==> v.lock.None? && e.next.Some?)
  }

  /** The next state of the task is in order. */
  predicate NextFits(mux: bool, task: Task, v: View, e: Effect) {
    e.next.Some? ==>
      var k := e.next.value;
      && k.addr == task.addr && k.attempt < ATTEMPTS
      && (mux && UnderLock(k.pc) ==> k.guard.Some?)
      && (LockFree(k.pc) ==> k.guard.None?)
      && (k.read != [] ==> Scanning(k.pc) && Aligned(k.read, v.pool) && e.pool.SamePool?)
  }

  /** Tunnels come from the pool, from before, or from this very registration. */
  predicate MentionFits(task: Task, v: View, e: Effect) {
    e.next.Some? && Mentioned(e.next.value.pc).Some? ==>
      var t := Mentioned(e.next.value.pc);
      t == Mentioned(task.pc) || t.value in v.pool || (e.pool.Join? && t == Some(v.newTunnel))
  }

  /** The peer a task goes on to use: the one of the tunnel just checked, the one carried on from
      before, or the one just handshaken. */
  predicate CarrierFits(task: Task, v: View, e: Effect) {
    && (e.next.Some? && UsesTunnel(e.next.value.pc).Some? ==>
          var t := UsesTunnel(e.next.value.pc);
          || UsesTunnel(task.pc) == t
          || (task.pc.Check? && t == Some(task.pc.tunnel) && e.allow == v.peer && v.peer.Some?)
          || (task.pc.Register? && e.pool == Join(task.pc.peer) && t == Some(v.newTunnel)))
    && (e.next.Some? && UsesPeer(e.next.value.pc).Some? ==>
          var p := UsesPeer(e.next.value.pc);
          UsesPeer(task.pc) == p || e.allow == p)
    && (e.pool.Join? ==> task.pc == Register(e.pool.peer))
  }

  /** What the invariants ask of a task on its own. */
  predicate Poised(mux: bool, task: Task, v: View) {
    && task.attempt < ATTEMPTS
    && (task.read != [] ==> Scanning(task.pc) && Aligned(task.read, v.pool))
    && (LockFree(task.pc) ==> task.guard.None?)
    && (mux && UnderLock(task.pc) ==> task.guard.Some?)
  }

  /** Counter, lock and handshakes move exactly with the task. */
  predicate Balanced(task: Task, e: Effect) {
    SlotFits(task, e) && HoldFits(task, e) && ConnectionFits(task, e)
  }

  /** The task goes on in order. */
  predicate InOrder(mux: bool, task: Task, v: View, e: Effect) {
    LockFits(mux, task, v, e) && NextFits(mux, task, v, e) && MentionFits(task, v, e) && CarrierFits(task, v, e)
  }

  lemma StreamBalanced(mux: bool, task: Task, v: View, answer: Answer, e: Effect)
    requires Poised(mux, task, v) && StreamStep(task, v, answer) == Some(e)
    ensures Balanced(task, e)
  {
  }

  lemma StreamInOrder(mux: bool, task: Task, v: View, answer: Answer, e: Effect)
    requires Poised(mux, task, v) && StreamStep(task, v, answer) == Some(e)
    ensures InOrder(mux, task, v, e)
  {
  }

  lemma EstablishBalanced(mux: bool, task: Task, v: View, answer: Answer, e: Effect)
    requires Poised(mux, task, v) && EstablishStep(task, v, answer) == Some(e)
    ensures Balanced(task, e)
  {
  }

  lemma EstablishInOrder(mux: bool, task: Task, v: View, answer: Answer, e: Effect)
    requires Poised(mux, task, v) && EstablishStep(task, v, answer) == Some(e)
    ensures InOrder(mux, task, v, e)
  {
  }

  lemma LoopBalanced(mux: bool, task: Task, v: View, e: Effect)
    requires Poised(mux, task, v) && LoopStep(mux, task, v) == Some(e)
    ensures Balanced(task, e)
  {
  }

  lemma LoopInOrder(mux: bool, task: Task, v: View, e: Effect)
    requires Poised(mux, task, v) && LoopStep(mux, task, v) == Some(e)
    ensures InOrder(mux, task, v, e)
  {
  }

  lemma PickIsRead(read: seq<(TunnelId, nat)>, cap: Option<nat>, pool: seq<TunnelId>)
    requires Aligned(read, pool)
    ensures PickRead(read, cap).Some? ==> PickRead(read, cap).value in pool
  {
  }

  lemma ReadFits(mux: bool, task: Task, v: View)
    requires Poised(mux, task, v) && Scanning(task.pc) && |task.read| < |v.pool|
    ensures Balanced(task, ReadStep(task, v)) && InOrder(mux, task, v, ReadStep(task, v))
  {
  }

  lemma PickBalanced(task: Task, e: Effect)
    requires Scanning(task.pc) && PickStep(task) == Some(e)
    ensures Balanced(task, e)
  {
  }

  lemma PickInOrder(mux: bool, task: Task, v: View, e: Effect)
    requires Poised(mux, task, v) && Scanning(task.pc) && Aligned(task.read, v.pool) && PickStep(task) == Some(e)
    ensures InOrder(mux, task, v, e)
  {
    PickIsRead(task.read, CapAtPc(task.pc), v.pool);
  }

  lemma ScanFits(mux: bool, task: Task, v: View, e: Effect)
    requires Poised(mux, task, v) && Scanning(task.pc) && ScanStep(task, v) == Some(e)
    ensures Balanced(task, e) && InOrder(mux, task, v, e)
  {
    if |task.read| < |v.pool| {
      ReadFits(mux, task, v);
    } else {
      PickBalanced(task, e);
      PickInOrder(mux, task, v, e);
    }
  }

  lemma EffectFits(mux: bool, task: Task, v: View, answer: Answer, e: Effect)
    requires Poised(mux, task, v) && EffectOf(mux, task, v, answer) == Some(e)
    ensures Balanced(task, e) && InOrder(mux, task, v, e)
  {
    if InStream(task.pc) {
      StreamBalanced(mux, task, v, answer, e);
      StreamInOrder(mux, task, v, answer, e);
    } else if InEstablish(task.pc) {
      EstablishBalanced(mux, task, v, answer, e);
      EstablishInOrder(mux, task, v, answer, e);
    } else if Scanning(task.pc) {
      ScanFits(mux, task, v, e);
    } else {
      LoopBalanced(mux, task, v, e);
      LoopInOrder(mux, task, v, e);
    }
  }

  lemma EndFits(mux: bool, task: Task, v: View)
    ensures Balanced(task, EndOf(task)) && InOrder(mux, task, v, EndOf(task))
  {
  }

  // ------------------------------------------------- applying a fitting effect

  /** What the step of task `x` leaves alone. */
  ghost predicate Evolves(s: State, s': State, x: TaskId) {
    && (forall t | t in s.tunnels ::
          && t in s'.tunnels && s'.tunnels[t].addr == s.tunnels[t].addr
          && s'.tunnels[t].peer == s.tunnels[t].peer && s'.tunnels[t].creator == s.tunnels[t].creator)
    && s.approved <= s'.approved && s.nextTask <= s'.nextTask
    && (forall a | a in s.creating :: a in s'.creating && s'.creating[a] == s.creating[a])
    && (forall l | l in s.holder && s.holder[l] != x :: l in s'.holder && s'.holder[l] == s.holder[l])
    && (forall y | y in s.tasks && y != x :: y in s'.tasks && s'.tasks[y] == s.tasks[y])
    && (forall y | y in s'.tasks && y != x :: y in s.tasks)
    && (forall y | y in s.tasks && y != x && s.tasks[y].read != [] :: Pool(s', s.tasks[y].addr) == Pool(s, s.tasks[y].addr))
  }

  /** The tasks that did not move are still in order. */
  lemma OthersOk(c: Config, s: State, s': State, x: TaskId)
    requires TasksOk(c, s) && Evolves(s, s', x)
    ensures forall y | y in s'.tasks && y != x :: TaskOk(c, s', y)
  {
  }

  /** A step of task `x` that fits the state it is taken in. */
  ghost predicate Ready(c: Config, s: State, x: TaskId, e: Effect) {
    && Inv(c, s) && x in s.tasks && TaskOk(c, s, x)
    && Balanced(s.tasks[x], e) && InOrder(c.muxEnabled, s.tasks[x], ViewOf(c, s, s.tasks[x]), e)
    && MayStep(c, s, x, s.tasks[x].addr, e)
  }

  ghost function After(s: State, x: TaskId, e: Effect): State
    requires x in s.tasks
  {
    Apply(s, x, s.tasks[x].addr, e)
  }

  lemma ApplyEvolves(c: Config, s: State, x: TaskId, e: Effect)
    requires Ready(c, s, x, e)
    ensures Evolves(s, After(s, x, e), x)
  {
    assert s.nextTunnel !in s.tunnels;
    EvolvesStep(s, x, e);
  }

  lemma EvolvesStep(s: State, x: TaskId, e: Effect)
    requires x in s.tasks && s.nextTunnel !in s.tunnels
    requires var task := s.tasks[x];
             && (e.newLock ==> task.addr !in s.creating)
             && (e.hold.Take? ==> e.hold.lock !in s.holder)
             && (e.hold.Release? ==> e.hold.lock in s.holder && s.holder[e.hold.lock] == x)
             && (e.pool.SamePool? || ListFree(s, x, task.addr))
    ensures Evolves(s, After(s, x, e), x)
  {
  }

  /** The tunnel the task goes on with is one of its address, or the one just registered. */
  lemma MentionedExists(c: Config, s: State, x: TaskId, e: Effect)
    requires Ready(c, s, x, e) && e.next.Some? && Mentioned(e.next.value.pc).Some?
    ensures var t := Mentioned(e.next.value.pc).value;
            (t in s.tunnels && s.tunnels[t].addr == s.tasks[x].addr) || (e.pool.Join? && t == s.nextTunnel)
  {
    assert AddressOk(c, s, s.tasks[x].addr);
  }

  lemma ApplyMoverOk(c: Config, s: State, x: TaskId, e: Effect)
    requires Ready(c, s, x, e) && e.next.Some?
    ensures TaskOk(c, After(s, x, e), x)
  {
    ApplyEvolves(c, s, x, e);
    if Mentioned(e.next.value.pc).Some? {
      MentionedExists(c, s, x, e);
    }
    MoverLocks(c, s, x, e, ViewOf(c, s, s.tasks[x]));
    MoverStep(c, s, x, e, ViewOf(c, s, s.tasks[x]));
  }

  /** What a task owes to the locks. */
  ghost predicate LockedOk(c: Config, s: State, x: TaskId, task: Task) {
    && (task.guard.Some? ==>
          && task.addr in s.creating && s.creating[task.addr] == task.guard.value
          && task.guard.value in s.holder && s.holder[task.guard.value] == x)
    && (task.pc.WaitLock? ==> task.addr in s.creating && s.creating[task.addr] == task.pc.lock)
    && (c.muxEnabled && UnderLock(task.pc) ==> task.guard.Some?)
    && (LockFree(task.pc) ==> task.guard.None?)
  }

  lemma MoverLocks(c: Config, s: State, x: TaskId, e: Effect, v: View)
    requires x in s.tasks && TaskOk(c, s, x) && e.next.Some? && Evolves(s, After(s, x, e), x)
    requires HoldFits(s.tasks[x], e) && LockFits(c.muxEnabled, s.tasks[x], v, e) && NextFits(c.muxEnabled, s.tasks[x], v, e)
    requires v.newLock == s.nextLock
    requires v.lock == if s.tasks[x].addr in s.creating then Some(s.creating[s.tasks[x].addr]) else None
    ensures LockedOk(c, After(s, x, e), x, e.next.value)
  {
  }

  lemma MoverStep(c: Config, s: State, x: TaskId, e: Effect, v: View)
    requires x in s.tasks && TaskOk(c, s, x) && e.next.Some? && Evolves(s, After(s, x, e), x)
    requires NextFits(c.muxEnabled, s.tasks[x], v, e) && CarrierFits(s.tasks[x], v, e)
    requires LockedOk(c, After(s, x, e), x, e.next.value)
    requires v.newTunnel == s.nextTunnel && v.peer == PeerAt(s, s.tasks[x].pc) && v.pool == Pool(s, s.tasks[x].addr)
    requires e.pool.Join? ==> e.live.SameLive?
    requires Mentioned(e.next.value.pc).Some? ==>
               var t := Mentioned(e.next.value.pc).value;
               (t in s.tunnels && s.tunnels[t].addr == s.tasks[x].addr) || (e.pool.Join? && t == s.nextTunnel)
    ensures TaskOk(c, After(s, x, e), x)
  {
  }

  lemma ApplyTasksOk(c: Config, s: State, x: TaskId, e: Effect)
    requires Ready(c, s, x, e)
    ensures TasksOk(c, After(s, x, e))
  {
    ApplyEvolves(c, s, x, e);
    OthersOk(c, s, After(s, x, e), x);
    if e.next.Some? {
      ApplyMoverOk(c, s, x, e);
    }
  }

  lemma ApplyPoolOk(s: State, x: TaskId, e: Effect, b: Addr)
    requires x in s.tasks && s.nextTunnel !in s.tunnels && PoolOk(s, b) && Evolves(s, After(s, x, e), x)
    requires e.pool.Join? ==> e.live.SameLive?
    ensures PoolOk(After(s, x, e), b)
  {
    var pool := Pool(s, b);
    if b == s.tasks[x].addr && e.pool.Remove? {
      WithoutDistinct(pool, e.pool.tunnel);
    } else if b == s.tasks[x].addr && e.pool.Join? {
      assert s.nextTunnel !in pool;
      assert Pool(After(s, x, e), b) == pool + [s.nextTunnel];
    }
  }

  lemma ApplyTunnelsOk(c: Config, s: State, x: TaskId, e: Effect)
    requires Ready(c, s, x, e) && Evolves(s, After(s, x, e), x)
    ensures TunnelsOk(After(s, x, e))
  {
  }

  lemma LocksStep(s: State, x: TaskId, e: Effect)
    requires x in s.tasks && LocksOk(s) && HoldFits(s.tasks[x], e)
    requires e.hold.Take? ==> e.hold.lock !in s.holder
    requires s.tasks[x].guard.Some? ==> s.tasks[x].guard.value in s.holder && s.holder[s.tasks[x].guard.value] == x
    ensures var s' := After(s, x, e);
            forall l | l in s'.holder :: s'.holder[l] in s'.tasks && s'.tasks[s'.holder[l]].guard == Some(l)
  {
  }

  lemma ApplyLocksOk(c: Config, s: State, x: TaskId, e: Effect)
    requires Ready(c, s, x, e)
    ensures LocksOk(After(s, x, e))
  {
    LocksStep(s, x, e);
  }

  /** How the number of tasks of some kind changes with the step. */
  lemma ApplyCount(c: Config, s: State, x: TaskId, e: Effect, f: Task -> bool)
    requires x in s.tasks
    ensures |Having(After(s, x, e).tasks, f)| ==
            |Having(s.tasks, f)| - One(f(s.tasks[x])) + One(e.next.Some? && f(e.next.value))
  {
    if e.next.Some? {
      HavingPut(s.tasks, x, e.next.value, f);
    } else {
      HavingDrop(s.tasks, x, f);
    }
  }

  lemma ApplySlotOk(c: Config, s: State, x: TaskId, e: Effect, t: TunnelId)
    requires TasksOk(c, s) && SlotsOk(s) && x in s.tasks && SlotFits(s.tasks[x], e) && s.nextTunnel !in s.tunnels
    requires t in After(s, x, e).tunnels
    ensures After(s, x, e).tunnels[t].live == |Having(After(s, x, e).tasks, SlotOn(t))|
  {
    ApplyCount(c, s, x, e, SlotOn(t));
    if t !in s.tunnels {
      NoSlotOnUnknown(c, s, t);
    } else if e.live == Dec(t) {
      SlotIsLive(c, s, x);
    }
    SlotStep(s, x, e, t);
  }

  lemma ApplySlotsOk(c: Config, s: State, x: TaskId, e: Effect)
    requires Ready(c, s, x, e)
    ensures SlotsOk(After(s, x, e))
  {
    assert s.nextTunnel !in s.tunnels;
    forall t | t in After(s, x, e).tunnels
      ensures After(s, x, e).tunnels[t].live == |Having(After(s, x, e).tasks, SlotOn(t))|
    {
      ApplySlotOk(c, s, x, e, t);
    }
  }

  lemma SlotStep(s: State, x: TaskId, e: Effect, t: TunnelId)
    requires x in s.tasks && SlotFits(s.tasks[x], e) && s.nextTunnel !in s.tunnels
    requires t in After(s, x, e).tunnels
    requires e.live == Dec(t) && t in s.tunnels ==> s.tunnels[t].live > 0
    ensures After(s, x, e).tunnels[t].live ==
            Live(s, t) - One(Slot(s.tasks[x]) == Some(t)) + One(e.next.Some? && Slot(e.next.value) == Some(t))
  {
  }

  lemma NoSlotOnUnknown(c: Config, s: State, t: TunnelId)
    requires TasksOk(c, s) && t !in s.tunnels
    ensures Having(s.tasks, SlotOn(t)) == {}
  {
  }

  lemma ConservedStep(c: Config, s: State, x: TaskId, e: Effect, b: Addr)
    requires x in s.tasks && ConnectionFits(s.tasks[x], e) && ConservedAt(s, b) && Distinct(Pool(s, b))
    requires e.next.Some? ==> e.next.value.addr == s.tasks[x].addr
    ensures ConservedAt(After(s, x, e), b)
  {
    ApplyCount(c, s, x, e, ConnectingTo(b));
    if b == s.tasks[x].addr && e.pool.Remove? {
      WithoutDistinct(Pool(s, b), e.pool.tunnel);
    }
  }

  /** Two tasks under the creation lock of one address are one task. */
  lemma LockExcludes(c: Config, s: State, x: TaskId, y: TaskId)
    requires TasksOk(c, s) && x in s.tasks && y in s.tasks && s.tasks[x].addr == s.tasks[y].addr
    requires s.tasks[x].guard.Some? && s.tasks[y].guard.Some?
    ensures x == y
  {
  }

  /** A lock holder that is not connecting knows that nobody is. */
  lemma NobodyConnects(c: Config, s: State, x: TaskId)
    requires c.muxEnabled && TasksOk(c, s) && x in s.tasks
    requires s.tasks[x].guard.Some? && !Connecting(s.tasks[x].pc)
    ensures Having(s.tasks, ConnectingTo(s.tasks[x].addr)) == {}
  {
  }

  lemma CapStep(c: Config, s: State, x: TaskId, e: Effect, b: Addr)
    requires x in s.tasks && ConnectionFits(s.tasks[x], e) && CapAt(s, b) && Distinct(Pool(s, b))
    requires e.next.Some? ==> e.next.value.addr == s.tasks[x].addr
    requires e.handshake && b == s.tasks[x].addr ==>
               Having(s.tasks, ConnectingTo(b)) == {} && |Pool(s, b)| < MAX_TUNNELS_PER_PEER
    ensures CapAt(After(s, x, e), b)
  {
    ApplyCount(c, s, x, e, ConnectingTo(b));
    if b == s.tasks[x].addr && e.pool.Remove? {
      WithoutDistinct(Pool(s, b), e.pool.tunnel);
    }
  }

  lemma AddressStep(c: Config, s: State, x: TaskId, e: Effect, b: Addr)
    requires x in s.tasks && s.nextTunnel !in s.tunnels && AddressOk(c, s, b) && Evolves(s, After(s, x, e), x)
    requires ConnectionFits(s.tasks[x], e) && (e.pool.Join? ==> e.live.SameLive?)
    requires e.next.Some? ==> e.next.value.addr == s.tasks[x].addr
    requires c.muxEnabled && e.handshake && b == s.tasks[x].addr ==>
               Having(s.tasks, ConnectingTo(b)) == {} && |Pool(s, b)| < MAX_TUNNELS_PER_PEER
    ensures AddressOk(c, After(s, x, e), b)
  {
    ApplyPoolOk(s, x, e, b);
    ConservedStep(c, s, x, e, b);
    if c.muxEnabled {
      CapStep(c, s, x, e, b);
    }
  }

  lemma ApplyAddressesOk(c: Config, s: State, x: TaskId, e: Effect)
    requires Ready(c, s, x, e) && Evolves(s, After(s, x, e), x)
    ensures AddressesOk(c, After(s, x, e))
  {
    if c.muxEnabled && e.handshake {
      NobodyConnects(c, s, x);
    }
    forall b
      ensures AddressOk(c, After(s, x, e), b)
    {
      assert AddressOk(c, s, b);
      AddressStep(c, s, x, e, b);
    }
  }

  lemma TaskCount(s: State, x: TaskId, e: Effect)
    requires x in s.tasks
    ensures |After(s, x, e).tasks| <= |s.tasks|
  {
  }

  /** Every fitting step keeps the invariant. */
  lemma ApplyInv(c: Config, s: State, x: TaskId, e: Effect)
    requires Ready(c, s, x, e)
    ensures Inv(c, After(s, x, e))
  {
    ApplyEvolves(c, s, x, e);
    ApplyTasksOk(c, s, x, e);
    ApplyTunnelsOk(c, s, x, e);
    ApplyLocksOk(c, s, x, e);
    ApplySlotsOk(c, s, x, e);
    ApplyAddressesOk(c, s, x, e);
    TaskCount(s, x, e);
  }

  // ------------------------------------------------------------- every action

  lemma SpawnIsNew(c: Config, s: State)
    requires TasksOk(c, s)
    ensures s.nextTask !in s.tasks
  {
  }

  lemma SpawnTasksOk(c: Config, s: State, a: Addr, s': State)
    requires TasksOk(c, s) && Next(c, s, Spawn(a), s')
    ensures TasksOk(c, s')
  {
  }

  lemma SpawnLocksOk(c: Config, s: State, a: Addr, s': State)
    requires s.nextTask !in s.tasks && LocksOk(s) && Next(c, s, Spawn(a), s')
    ensures LocksOk(s') && |s'.tasks| == |s.tasks| + 1
  {
  }

  lemma SpawnCounts(s: State, a: Addr, f: Task -> bool)
    requires s.nextTask !in s.tasks && !f(Task(a, 0, None, Start, []))
    ensures |Having(s.tasks[s.nextTask := Task(a, 0, None, Start, [])], f)| == |Having(s.tasks, f)|
  {
    HavingPut(s.tasks, s.nextTask, Task(a, 0, None, Start, []), f);
  }

  lemma SpawnAddress(c: Config, s: State, a: Addr, s': State, b: Addr)
    requires s.nextTask !in s.tasks && Next(c, s, Spawn(a), s') && AddressOk(c, s, b)
    ensures AddressOk(c, s', b)
  {
    SpawnCounts(s, a, ConnectingTo(b));
  }

  lemma SpawnSlots(c: Config, s: State, a: Addr, s': State)
    requires s.nextTask !in s.tasks && Next(c, s, Spawn(a), s') && SlotsOk(s)
    ensures SlotsOk(s')
  {
    forall t | t in s'.tunnels
      ensures s'.tunnels[t].live == |Having(s'.tasks, SlotOn(t))|
    {
      SpawnCounts(s, a, SlotOn(t));
    }
  }

  lemma SpawnAddresses(c: Config, s: State, a: Addr, s': State)
    requires s.nextTask !in s.tasks && Next(c, s, Spawn(a), s') && AddressesOk(c, s)
    ensures AddressesOk(c, s')
  {
    forall b
      ensures AddressOk(c, s', b)
    {
      assert AddressOk(c, s, b);
      SpawnAddress(c, s, a, s', b);
    }
  }

  lemma SpawnInv(c: Config, s: State, a: Addr, s': State)
    requires Inv(c, s) && Next(c, s, Spawn(a), s')
    ensures Inv(c, s')
  {
    SpawnIsNew(c, s);
    SpawnTasksOk(c, s, a, s');
    SpawnLocksOk(c, s, a, s');
    SpawnSlots(c, s, a, s');
    SpawnAddresses(c, s, a, s');
  }

  /** Drivers and policy changes move no task. */
  lemma NobodyMoves(c: Config, s: State, s': State)
    requires TasksOk(c, s) && s'.tasks == s.tasks && Evolves(s, s', s.nextTask)
    ensures TasksOk(c, s')
  {
    SpawnIsNew(c, s);
    OthersOk(c, s, s', s.nextTask);
  }

  lemma EvictEvolves(c: Config, s: State, t: TunnelId, s': State)
    requires Next(c, s, DriverEvict(t), s')
    ensures Evolves(s, s', s.nextTask) && s'.tasks == s.tasks
  {
  }

  lemma DriverEvolves(c: Config, s: State, action: Action, s': State)
    requires (action.DriverExit? || action.DriverEvict? || action.ChangePolicy?) && Next(c, s, action, s')
    ensures Evolves(s, s', s.nextTask) && s'.tasks == s.tasks
  {
    if action.DriverEvict? {
      EvictEvolves(c, s, action.tunnel, s');
    }
  }

  lemma AddressKept(c: Config, s: State, s': State, b: Addr)
    requires AddressOk(c, s, b) && Evolves(s, s', s.nextTask)
    requires s'.tasks == s.tasks && s'.pools == s.pools && s'.handshakes == s.handshakes && s'.losses == s.losses
    ensures AddressOk(c, s', b)
  {
  }

  lemma DriverExitInv(c: Config, s: State, t: TunnelId, s': State)
    requires Inv(c, s) && Next(c, s, DriverExit(t), s')
    ensures Inv(c, s')
  {
    DriverEvolves(c, s, DriverExit(t), s');
    NobodyMoves(c, s, s');
    forall b
      ensures AddressOk(c, s', b)
    {
      assert AddressOk(c, s, b);
      AddressKept(c, s, s', b);
    }
  }

  lemma DriverEvictPool(c: Config, s: State, t: TunnelId, s': State, b: Addr)
    requires Next(c, s, DriverEvict(t), s') && AddressOk(c, s, b)
    ensures AddressOk(c, s', b)
  {
    WithoutDistinct(Pool(s, b), t);
  }

  lemma DriverEvictInv(c: Config, s: State, t: TunnelId, s': State)
    requires Inv(c, s) && Next(c, s, DriverEvict(t), s')
    ensures Inv(c, s')
  {
    DriverEvolves(c, s, DriverEvict(t), s');
    NobodyMoves(c, s, s');
    forall b
      ensures AddressOk(c, s', b)
    {
      assert AddressOk(c, s, b);
      DriverEvictPool(c, s, t, s', b);
    }
  }

  lemma ChangePolicyInv(c: Config, s: State, rules: Rules, s': State)
    requires Inv(c, s) && Next(c, s, ChangePolicy(rules), s')
    ensures Inv(c, s')
  {
    DriverEvolves(c, s, ChangePolicy(rules), s');
    NobodyMoves(c, s, s');
    forall b
      ensures AddressOk(c, s', b)
    {
      assert AddressOk(c, s, b);
      AddressKept(c, s, s', b);
    }
  }

  /** The effect of the action if it is a task's. */
  ghost function EffectIn(c: Config, s: State, action: Action): Option<Effect> {
    match action
    case Run(x, answer) =>
      if x in s.tasks then EffectOf(c.muxEnabled, s.tasks[x], ViewOf(c, s, s.tasks[x]), answer) else None
    case Leave(x) => if x in s.tasks then Some(EndOf(s.tasks[x])) else None
    case _ => None
  }

  lemma TaskActionReady(c: Config, s: State, action: Action, s': State)
    requires Inv(c, s) && Next(c, s, action, s') && (action.Run? || action.Leave?)
    ensures EffectIn(c, s, action).Some?
    ensures Ready(c, s, action.task, EffectIn(c, s, action).value)
    ensures s' == After(s, action.task, EffectIn(c, s, action).value)
  {
    var x := action.task;
    assert TaskOk(c, s, x);
    if action.Run? {
      EffectFits(c.muxEnabled, s.tasks[x], ViewOf(c, s, s.tasks[x]), action.answer, EffectIn(c, s, action).value);
    } else {
      EndFits(c.muxEnabled, s.tasks[x], ViewOf(c, s, s.tasks[x]));
    }
  }

  /** Every action keeps the invariant. */
  lemma NextInv(c: Config, s: State, action: Action, s': State)
    requires Inv(c, s) && Next(c, s, action, s')
    ensures Inv(c, s')
  {
    match action
    case Spawn(a) => SpawnInv(c, s, a, s');
    case Run(x, _) =>
      TaskActionReady(c, s, action, s');
      ApplyInv(c, s, x, EffectIn(c, s, action).value);
    case Leave(x) =>
      TaskActionReady(c, s, action, s');
      ApplyInv(c, s, x, EffectIn(c, s, action).value);
    case DriverExit(t) => DriverExitInv(c, s, t, s');
    case DriverEvict(t) => DriverEvictInv(c, s, t, s');
    case ChangePolicy(rules) => ChangePolicyInv(c, s, rules, s');
  }

  /** So it holds in every state of every run. */
  lemma {:induction false} RunInv(c: Config, h: History, n: nat)
    requires IsRun(c, h) && n < |h.states|
    ensures Inv(c, h.states[n])
  {
    if n == 0 {
      InitInv(c, h.states[0]);
    } else {
      RunInv(c, h, n - 1);
      assert StepAt(c, h, n - 1);
      NextInv(c, h.states[n - 1], h.actions[n - 1], h.states[n]);
    }
  }
}

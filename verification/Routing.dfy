/** Outbound routing as a system of interleaved steps.

    Every connection that holds a permit is a task with a program counter.  One step is one
    access to shared state: reading the load of one tunnel, one atomic counter update, taking or
    dropping the creation lock, one policy evaluation, or one answer of the environment (a
    handshake, a stream open).  A scan of `pick_under_cap` or `pick_any` reads the loads of its
    peer's tunnels one after another; while it does, the list of these tunnels is locked against
    change, but their loads are not. */
module Routing {
  import opened ByteStrings
  import opened SpiffeIds
  import opened Policies
  import opened MuxPools

  type TaskId = nat
  type LockId = nat

  const ATTEMPTS: nat := 4

  /** `atomicScans` restricts the runs to those in which no other task steps during a scan. */
  datatype Config = Config(muxEnabled: bool, maxConnections: nat, localId: SpiffeId, atomicScans: bool)

  datatype Route = Mux(tunnel: TunnelId) | Legacy(peer: SpiffeId) | Denied | Failed

  /** Where a task is in `route`, `try_tunnel_stream` or `establish`.  `own` marks the stream a
      task opens on the tunnel it has just registered itself. */
  datatype Pc =
    | Start
    | Pick
    | Check(tunnel: TunnelId)
    | Reserve(tunnel: TunnelId, own: bool)
    | Opening(tunnel: TunnelId, own: bool)
    | Evicting(tunnel: TunnelId, own: bool)
    | FindLock
    | WaitLock(lock: LockId)
    | Recheck
    | Unlock(tunnel: TunnelId)
    | Grow
    | AtCap
    | PickAny
    | Connect
    | Connected(peer: SpiffeId, mux: bool)
    | Register(peer: SpiffeId)
    | Finish(route: Route)
    | Routed(route: Route)

  /** `read` are the loads a scan has read so far. */
  datatype Task = Task(addr: Addr, attempt: nat, guard: Option<LockId>, pc: Pc, read: seq<(TunnelId, nat)>)

  /** A tunnel that was registered at some time, in the pool or not. */
  datatype TunnelState = TunnelState(addr: Addr, peer: SpiffeId, creator: TaskId, live: nat, running: bool)

  datatype State = State(
    tasks: map<TaskId, Task>,
    nextTask: TaskId,
    pools: map<Addr, seq<TunnelId>>,
    tunnels: map<TunnelId, TunnelState>,
    nextTunnel: TunnelId,
    creating: map<Addr, LockId>,
    nextLock: LockId,
    holder: map<LockId, TaskId>,
    rules: Rules,
    // history: handshakes begun, handshakes that left no tunnel behind plus tunnels
    // evicted, and the Allow decisions of each call
    handshakes: map<Addr, nat>,
    losses: map<Addr, nat>,
    approved: set<(TaskId, SpiffeId)>)

  /** What the environment answers to a waiting task. */
  datatype Answer =
    | Nothing
    | HandshakeFailed
    | HandshakeOk(peer: SpiffeId, mux: bool)
    | OpenOk
    | OpenFailed

  datatype Action =
    | Spawn(addr: Addr)
    | Run(task: TaskId, answer: Answer)
    | Leave(task: TaskId)
    | DriverExit(tunnel: TunnelId)
    | DriverEvict(tunnel: TunnelId)
    | ChangePolicy(rules: Rules)

  // -------------------------------------------------------------------- views

  function Pool(s: State, a: Addr): seq<TunnelId> {
    if a in s.pools then s.pools[a] else []
  }

  function Live(s: State, t: TunnelId): nat {
    if t in s.tunnels then s.tunnels[t].live else 0
  }

  function Count(m: map<Addr, nat>, a: Addr): nat {
    if a in m then m[a] else 0
  }

  function Bump(m: map<Addr, nat>, a: Addr): map<Addr, nat> {
    m[a := Count(m, a) + 1]
  }

  function LoadsRead(read: seq<(TunnelId, nat)>): (r: seq<nat>)
    ensures |r| == |read| && forall i | 0 <= i < |read| :: r[i] == read[i].1
  {
    seq(|read|, i requires 0 <= i < |read| => read[i].1)
  }

  /** The pick of a scan that has read all there is. */
  function PickRead(read: seq<(TunnelId, nat)>, cap: Option<nat>): Option<TunnelId> {
    match Least(LoadsRead(read), cap)
    case None => None
    case Some(i) => Some(read[i].0)
  }

  // ------------------------------------------------------- effects of one step

  datatype Hold = SameHold | Take(lock: LockId) | Release(lock: LockId)
  datatype LiveChange = SameLive | Inc(tunnel: TunnelId) | Dec(tunnel: TunnelId)
  datatype PoolChange = SamePool | Remove(tunnel: TunnelId) | Join(peer: SpiffeId)

  /** What one step of a task does: its own next state, or none when it ends, and the changes it
      makes to the creation lock, one live counter, the pool and the history. */
  datatype Effect = Effect(
    next: Option<Task>,
    hold: Hold,
    newLock: bool,
    live: LiveChange,
    pool: PoolChange,
    handshake: bool,
    lost: bool,
    allow: Option<SpiffeId>)

  /** The task moves and nothing else changes. */
  function Move(task: Task): Effect {
    Effect(Some(task), SameHold, false, SameLive, SamePool, false, false, None)
  }

  function Go(task: Task, pc: Pc): Effect {
    Move(task.(pc := pc))
  }

  function Guarded(guard: Option<LockId>): Hold {
    if guard.Some? then Release(guard.value) else SameHold
  }

  /** The task drops its guard, if it has one, and goes on at `pc`. */
  function DropGuard(task: Task, pc: Pc): Effect {
    Move(task.(guard := None, pc := pc)).(hold := Guarded(task.guard))
  }

  /** The next turn of the retry loop, or giving up behind the last. */
  function Retried(task: Task): Task {
    if task.attempt + 1 == ATTEMPTS then task.(pc := Routed(Failed))
    else task.(attempt := task.attempt + 1, pc := Pick)
  }

  function Tunnels(s: State, x: TaskId, a: Addr, e: Effect): map<TunnelId, TunnelState> {
    match e.live
    case Inc(t) => if t in s.tunnels then s.tunnels[t := s.tunnels[t].(live := s.tunnels[t].live + 1)] else s.tunnels
    case Dec(t) =>
      if t in s.tunnels && s.tunnels[t].live > 0 then s.tunnels[t := s.tunnels[t].(live := s.tunnels[t].live - 1)]
      else s.tunnels
    case SameLive =>
      if e.pool.Join? then s.tunnels[s.nextTunnel := TunnelState(a, e.pool.peer, x, 0, true)] else s.tunnels
  }

  function PoolAfter(s: State, a: Addr, change: PoolChange): seq<TunnelId> {
    match change
    case SamePool => Pool(s, a)
    case Remove(t) => Without(Pool(s, a), t)
    case Join(_) => Pool(s, a) + [s.nextTunnel]
  }

  /** The loss of a handshake's result: the connection came to nothing, or its tunnel is evicted. */
  predicate Loses(s: State, a: Addr, e: Effect) {
    e.lost || (e.pool.Remove? && e.pool.tunnel in Pool(s, a))
  }

  function Holders(s: State, x: TaskId, hold: Hold): map<LockId, TaskId> {
    match hold
    case SameHold => s.holder
    case Take(l) => s.holder[l := x]
    case Release(l) => s.holder - {l}
  }

  /** The state behind a step of task `x`, bound for `a`. */
  function Apply(s: State, x: TaskId, a: Addr, e: Effect): State {
    s.(tasks := if e.next.Some? then s.tasks[x := e.next.value] else s.tasks - {x},
       pools := if e.pool.SamePool? then s.pools else s.pools[a := PoolAfter(s, a, e.pool)],
       tunnels := Tunnels(s, x, a, e),
       nextTunnel := if e.pool.Join? then s.nextTunnel + 1 else s.nextTunnel,
       creating := if e.newLock then s.creating[a := s.nextLock] else s.creating,
       nextLock := if e.newLock then s.nextLock + 1 else s.nextLock,
       holder := Holders(s, x, e.hold),
       handshakes := if e.handshake then Bump(s.handshakes, a) else s.handshakes,
       losses := if Loses(s, a, e) then Bump(s.losses, a) else s.losses,
       approved := if e.allow.Some? then s.approved + {(x, e.allow.value)} else s.approved)
  }

  // ------------------------------------------------------------ steps of a task

  ghost predicate Allowed(c: Config, s: State, peer: SpiffeId) {
    Verdict(s.rules, c.localId, peer) == Allow
  }

  /** What a task can read of the shared state; each step looks at one item. */
  datatype View = View(
    pool: seq<TunnelId>,          // the tunnels of the address
    load: nat,                    // the load of the next of them that a scan comes to
    canGrow: bool,                // can_grow
    lock: Option<LockId>,         // the creation lock of the address, if made
    newLock: LockId,              // the lock made otherwise
    free: bool,                   // the lock waited for is not held
    newTunnel: TunnelId,          // the id a registration would take
    peer: Option<SpiffeId>,       // the peer in question
    allowed: bool)                // the policy's decision on it

  /** The peer a policy check at `pc` is about. */
  function PeerAt(s: State, pc: Pc): Option<SpiffeId> {
    match pc
    case Check(t) => if t in s.tunnels then Some(s.tunnels[t].peer) else None
    case Connected(peer, _) => Some(peer)
    case _ => None
  }

  ghost function ViewOf(c: Config, s: State, task: Task): View {
    var a := task.addr;
    var peer := PeerAt(s, task.pc);
    View(Pool(s, a),
         if |task.read| < |Pool(s, a)| then Live(s, Pool(s, a)[|task.read|]) else 0,
         |Pool(s, a)| < MAX_TUNNELS_PER_PEER,
         if a in s.creating then Some(s.creating[a]) else None,
         s.nextLock,
         task.pc.WaitLock? && task.pc.lock !in s.holder,
         s.nextTunnel,
         peer,
         peer.Some? && Allowed(c, s, peer.value))
  }

  /** `try_tunnel_stream` and `open_stream`, the latter also on the task's own new tunnel. */
  function StreamStep(task: Task, v: View, answer: Answer): Option<Effect> {
    match task.pc
    case Check(t) =>
      if v.peer.None? then None
      else if v.allowed then Some(Go(task, Reserve(t, false)).(allow := v.peer))
      else Some(Go(task, Routed(Denied)))
    case Reserve(t, own) => Some(Go(task, Opening(t, own)).(live := Inc(t)))
    case Opening(t, own) =>
      if answer == OpenOk then Some(Go(task, if own then Finish(Mux(t)) else Routed(Mux(t))))
      else if answer == OpenFailed then Some(Go(task, Evicting(t, own)).(live := Dec(t)))
      else None
    case Evicting(t, own) =>
      Some(Move(if own then task.(pc := Finish(Failed)) else Retried(task)).(pool := Remove(t)))
    case _ => None
  }

  /** `establish`, up to the stream on the new tunnel, and the end of the call. */
  function EstablishStep(task: Task, v: View, answer: Answer): Option<Effect> {
    match task.pc
    case Connect =>
      if answer.HandshakeFailed? then Some(Go(task, Finish(Failed)).(lost := true))
      else if answer.HandshakeOk? then Some(Go(task, Connected(answer.peer, answer.mux)))
      else None
    case Connected(peer, mux) =>
      if !v.allowed then Some(Go(task, Finish(Denied)).(lost := true))
      else if mux then Some(Go(task, Register(peer)).(allow := Some(peer)))
      else Some(Go(task, Finish(Legacy(peer))).(allow := Some(peer), lost := true))
    case Register(peer) => Some(Go(task, Reserve(v.newTunnel, true)).(pool := Join(peer)))
    case Finish(route) => Some(DropGuard(task, Routed(route)))
    case _ => None
  }

  predicate Scanning(pc: Pc) {
    pc.Pick? || pc.Recheck? || pc.PickAny?
  }

  /** What the scan at `pc` is after. */
  function CapAtPc(pc: Pc): Option<nat> {
    if pc.PickAny? then None else Some(STREAMS_PER_TUNNEL)
  }

  /** The scans of `route`, on the fast path, under the lock and at the hard cap: the next load is read. */
  function ReadStep(task: Task, v: View): Effect
    requires |task.read| < |v.pool|
  {
    Move(task.(read := task.read + [(v.pool[|task.read|], v.load)]))
  }

  /** Or, once all are read, the pick is made. */
  function PickStep(task: Task): Option<Effect> {
    var pick, done := PickRead(task.read, CapAtPc(task.pc)), task.(read := []);
    match task.pc
    case Pick => Some(Go(done, if pick.Some? then Check(pick.value) else FindLock))
    case Recheck => Some(Go(done, if pick.Some? then Unlock(pick.value) else Grow))
    case PickAny => Some(if pick.Some? then Go(done, Check(pick.value)) else Move(Retried(done)))
    case _ => None
  }

  function ScanStep(task: Task, v: View): Option<Effect> {
    if |task.read| < |v.pool| then Some(ReadStep(task, v)) else PickStep(task)
  }

  /** The loop of `route` outside those calls. */
  function LoopStep(mux: bool, task: Task, v: View): Option<Effect> {
    match task.pc
    case Start => Some(if mux then Go(task, Pick) else Go(task, Connect).(handshake := true))
    case FindLock =>
      if v.lock.Some? then Some(Go(task, WaitLock(v.lock.value)))
      else Some(Go(task, WaitLock(v.newLock)).(newLock := true))
    case WaitLock(l) =>
      if v.free then Some(Move(task.(guard := Some(l), pc := Recheck)).(hold := Take(l))) else None
    case Unlock(t) => Some(DropGuard(task, Check(t)))
    case Grow => Some(if v.canGrow then Go(task, Connect).(handshake := true) else Go(task, AtCap))
    case AtCap => Some(DropGuard(task, PickAny))
    case _ => None
  }

  predicate InStream(pc: Pc) {
    pc.Check? || pc.Reserve? || pc.Opening? || pc.Evicting?
  }

  predicate InEstablish(pc: Pc) {
    pc.Connect? || pc.Connected? || pc.Register? || pc.Finish?
  }

  /** The step of a task at its program counter, if it can take one. */
  function EffectOf(mux: bool, task: Task, v: View, answer: Answer): Option<Effect> {
    if InStream(task.pc) then StreamStep(task, v, answer)
    else if InEstablish(task.pc) then EstablishStep(task, v, answer)
    else if Scanning(task.pc) then ScanStep(task, v)
    else LoopStep(mux, task, v)
  }

  function Carried(route: Route): Option<TunnelId> {
    if route.Mux? then Some(route.tunnel) else None
  }

  /** The slot a task has reserved and not yet given back. */
  function Slot(task: Task): Option<TunnelId> {
    if task.pc.Opening? then Some(task.pc.tunnel)
    else if task.pc.Finish? || task.pc.Routed? then Carried(task.pc.route)
    else None
  }

  /** A TLS connection is being made and is not yet registered. */
  predicate Connecting(pc: Pc) {
    pc.Connect? || pc.Connected? || pc.Register?
  }

  /** A task ends, by finishing its relay or by cancellation at any point: its slot and its lock
      are given back as the values that hold them are dropped. */
  function EndOf(task: Task): Effect {
    var slot := Slot(task);
    Effect(None, Guarded(task.guard), false, if slot.Some? then Dec(slot.value) else SameLive, SamePool,
           false, Connecting(task.pc), None)
  }

  // ------------------------------------------------------------------- actions

  /** No task but `x` is in the middle of reading the list of `a`. */
  ghost predicate ListFree(s: State, x: TaskId, a: Addr) {
    forall y | y in s.tasks && y != x && s.tasks[y].addr == a :: s.tasks[y].read == []
  }

  /** No task but `x` is in the middle of a scan. */
  ghost predicate OnlyScan(s: State, x: TaskId) {
    forall y | y in s.tasks && y != x :: s.tasks[y].read == []
  }

  /** Task `x` may make the step: its list is free if it changes it, and it interrupts no atomic scan. */
  ghost predicate MayStep(c: Config, s: State, x: TaskId, a: Addr, e: Effect) {
    && (e.pool.SamePool? || ListFree(s, x, a))
    && (c.atomicScans ==> OnlyScan(s, x))
  }

  ghost predicate Next(c: Config, s: State, action: Action, s': State) {
    match action
    case Spawn(a) =>
      && |s.tasks| < c.maxConnections
      && s' == s.(tasks := s.tasks[s.nextTask := Task(a, 0, None, Start, [])], nextTask := s.nextTask + 1)
    case Run(x, answer) =>
      && x in s.tasks
      && var e := EffectOf(c.muxEnabled, s.tasks[x], ViewOf(c, s, s.tasks[x]), answer);
      && e.Some? && MayStep(c, s, x, s.tasks[x].addr, e.value) && s' == Apply(s, x, s.tasks[x].addr, e.value)
    case Leave(x) =>
      && x in s.tasks && MayStep(c, s, x, s.tasks[x].addr, EndOf(s.tasks[x]))
      && s' == Apply(s, x, s.tasks[x].addr, EndOf(s.tasks[x]))
    case DriverExit(t) =>
      && t in s.tunnels && s.tunnels[t].running
      && s' == s.(tunnels := s.tunnels[t := s.tunnels[t].(running := false)])
    case DriverEvict(t) =>
      && t in s.tunnels && !s.tunnels[t].running
      && var a := s.tunnels[t].addr;
      && ListFree(s, s.nextTask, a)
      && s' == s.(pools := s.pools[a := Without(Pool(s, a), t)],
                  losses := if t in Pool(s, a) then Bump(s.losses, a) else s.losses)
    case ChangePolicy(rules) => s' == s.(rules := rules)
  }

  ghost predicate Init(s: State) {
    && s.tasks == map[] && s.pools == map[] && s.tunnels == map[] && s.nextTunnel == 0
    && s.creating == map[] && s.holder == map[]
    && s.handshakes == map[] && s.losses == map[] && s.approved == {}
  }

  /** A run: states joined by actions. */
  datatype History = History(states: seq<State>, actions: seq<Action>)

  ghost predicate StepAt(c: Config, h: History, i: nat) {
    && i < |h.actions| && i + 1 < |h.states|
    && Next(c, h.states[i], h.actions[i], h.states[i + 1])
  }

  ghost predicate IsRun(c: Config, h: History) {
    && |h.states| == |h.actions| + 1
    && Init(h.states[0])
    && forall i | 0 <= i < |h.actions| :: StepAt(c, h, i)
  }
}

/** Connection admission and graceful shutdown, the same in the inbound and the outbound proxy:
    acceptor tasks that take a permit per connection, the active counter, and the shutdown wait.
    Every atomic operation of the source is one step, and steps of all tasks interleave freely. */
module Admission {
  import opened Counting

  type AcceptorId = nat
  type ConnId = nat

  /** How far `handle_accept` has got with a connection. */
  datatype Stage = Arrived | Permitted | Counted

  /** An acceptor task: in its select, inside `handle_accept`, or out of its loop. */
  datatype Acceptor = Selecting | Handling(conn: ConnId, stage: Stage) | Stopped

  /** A spawned connection task: in `handle_connection`, past it, or only its permit left to give back. */
  datatype Task = Running | Returned | Uncounted

  datatype Wait = NotWaiting | Polling | Complete | Expired

  /** What became of an accepted connection. */
  datatype Fate = Pending(acceptor: AcceptorId) | Dropped | Rejected | Served

  datatype State = State(
    acceptors: map<AcceptorId, Acceptor>,
    tasks: map<ConnId, Task>,
    permits: nat,               // available in connection_semaphore
    active: int,                // active_connections
    rejections: nat,            // saturation_rejections_total
    signalled: bool,            // shutdown sent, or its sender dropped
    wait: Wait,                 // wait_for_graceful_shutdown
    accepted: nat,              // connections accepted so far, numbered in order
    fates: map<ConnId, Fate>)

  datatype Action =
    | Accept(acceptor: AcceptorId)
    | Decide(acceptor: AcceptorId, upstream: bool)
    | Count(acceptor: AcceptorId)
    | Spawn(acceptor: AcceptorId)
    | Return(conn: ConnId)
    | Uncount(conn: ConnId)
    | Free(conn: ConnId)
    | Signal
    | Stop(acceptor: AcceptorId)
    | BeginWait
    | SeeNone
    | Expire

  ghost predicate Init(max: nat, s: State) {
    && (forall k | k in s.acceptors :: s.acceptors[k] == Selecting)
    && s.tasks == map[] && s.permits == max && s.active == 0 && s.rejections == 0
    && !s.signalled && s.wait == NotWaiting && s.accepted == 0 && s.fates == map[]
  }

  ghost predicate At(s: State, k: AcceptorId, stage: Stage) {
    k in s.acceptors && s.acceptors[k].Handling? && s.acceptors[k].stage == stage
  }

  ghost predicate InSelect(s: State, k: AcceptorId) {
    k in s.acceptors && s.acceptors[k] == Selecting
  }

  ghost predicate TaskAt(s: State, c: ConnId, t: Task) {
    c in s.tasks && s.tasks[c] == t
  }

  ghost predicate AllStopped(s: State) {
    forall k | k in s.acceptors :: s.acceptors[k].Stopped?
  }

  /** Acceptor `k` goes to `a`, and connection `c` gets fate `f`. */
  ghost function Move(s: State, k: AcceptorId, a: Acceptor, c: ConnId, f: Fate): State {
    s.(acceptors := s.acceptors[k := a], fates := s.fates[c := f])
  }

  ghost predicate Next(s: State, action: Action, s': State) {
    match action
    case Accept(k) =>
      && InSelect(s, k)
      && s' == Move(s, k, Handling(s.accepted, Arrived), s.accepted, Pending(k)).(accepted := s.accepted + 1)
    case Decide(k, upstream) =>
      && At(s, k, Arrived)
      && var c := s.acceptors[k].conn;
         s' == if !upstream then Move(s, k, Selecting, c, Dropped)
               else if s.permits == 0 then Move(s, k, Selecting, c, Rejected).(rejections := s.rejections + 1)
               else Move(s, k, Handling(c, Permitted), c, Pending(k)).(permits := s.permits - 1)
    case Count(k) =>
      && At(s, k, Permitted)
      && var c := s.acceptors[k].conn;
         s' == Move(s, k, Handling(c, Counted), c, Pending(k)).(active := s.active + 1)
    case Spawn(k) =>
      && At(s, k, Counted)
      && var c := s.acceptors[k].conn;
         s' == Move(s, k, Selecting, c, Served).(tasks := s.tasks[c := Running])
    case Return(c) => TaskAt(s, c, Running) && s' == s.(tasks := s.tasks[c := Returned])
    case Uncount(c) => TaskAt(s, c, Returned) && s' == s.(tasks := s.tasks[c := Uncounted], active := s.active - 1)
    case Free(c) => TaskAt(s, c, Uncounted) && s' == s.(tasks := s.tasks - {c}, permits := s.permits + 1)
    case Signal => s' == s.(signalled := true)
    case Stop(k) => InSelect(s, k) && s.signalled && s' == s.(acceptors := s.acceptors[k := Stopped])
    case BeginWait => s.wait == NotWaiting && AllStopped(s) && s' == s.(wait := Polling)
    case SeeNone => s.wait == Polling && s.active == 0 && s' == s.(wait := Complete)
    case Expire => s.wait == Polling && s' == s.(wait := Expired)
  }

  // --------------------------------------------------------------- invariants

  ghost function HasPermit(): Acceptor -> bool {
    (a: Acceptor) => a.Handling? && !a.stage.Arrived?
  }

  ghost function IsCounted(): Acceptor -> bool {
    (a: Acceptor) => a.Handling? && a.stage.Counted?
  }

  ghost function AnyTask(): Task -> bool {
    (t: Task) => true
  }

  ghost function CountedTask(): Task -> bool {
    (t: Task) => !t.Uncounted?
  }

  ghost function Is(f: Fate): Fate -> bool {
    (g: Fate) => g == f
  }

  ghost function AnyPending(): Fate -> bool {
    (g: Fate) => g.Pending?
  }

  /** Permits out of the semaphore: with an acceptor or with a connection task. */
  ghost function Held(s: State): nat {
    |Having(s.acceptors, HasPermit())| + |Having(s.tasks, AnyTask())|
  }

  /** Connections counted and not yet uncounted. */
  ghost function InCount(s: State): nat {
    |Having(s.acceptors, IsCounted())| + |Having(s.tasks, CountedTask())|
  }

  ghost predicate Counts(max: nat, s: State) {
    && s.permits + Held(s) == max
    && s.active == InCount(s)
    && s.rejections == |Having(s.fates, Is(Rejected))|
  }

  ghost predicate HandlerOk(s: State, k: AcceptorId) {
    k in s.acceptors && s.acceptors[k].Handling? ==>
      s.acceptors[k].conn in s.fates && s.fates[s.acceptors[k].conn] == Pending(k)
  }

  ghost predicate FateOk(s: State, c: ConnId) {
    && (c in s.fates <==> c < s.accepted)
    && (c in s.fates && s.fates[c].Pending? ==>
          var k := s.fates[c].acceptor;
          k in s.acceptors && s.acceptors[k].Handling? && s.acceptors[k].conn == c)
    && (c in s.tasks ==> c in s.fates && s.fates[c] == Served)
  }

  /** Each accepted connection is with exactly one acceptor, or has its final fate. */
  ghost predicate Linked(s: State) {
    && (forall k :: HandlerOk(s, k))
    && (forall c :: FateOk(s, c))
  }

  ghost predicate Phased(s: State) {
    && (forall k | k in s.acceptors && s.acceptors[k].Stopped? :: s.signalled)
    && (s.wait != NotWaiting ==> AllStopped(s))
    && (s.wait == Complete ==> s.active == 0)
  }

  ghost predicate Inv(max: nat, s: State) {
    Counts(max, s) && Linked(s) && Phased(s)
  }

  lemma InitInv(max: nat, s: State)
    requires Init(max, s)
    ensures Inv(max, s)
  {
  }

  lemma AcceptorMoves(s: State, k: AcceptorId, a: Acceptor)
    requires k in s.acceptors
    ensures var b, m := s.acceptors[k], s.acceptors[k := a];
            && |Having(m, HasPermit())| + One(HasPermit()(b)) == |Having(s.acceptors, HasPermit())| + One(HasPermit()(a))
            && |Having(m, IsCounted())| + One(IsCounted()(b)) == |Having(s.acceptors, IsCounted())| + One(IsCounted()(a))
  {
    HavingPut(s.acceptors, k, a, HasPermit());
    HavingPut(s.acceptors, k, a, IsCounted());
  }

  lemma TaskMoves(s: State, c: ConnId, t: Task)
    ensures var m := s.tasks[c := t];
            && |Having(m, AnyTask())| + One(c in s.tasks) == |Having(s.tasks, AnyTask())| + 1
            && |Having(m, CountedTask())| + One(c in s.tasks && !s.tasks[c].Uncounted?)
               == |Having(s.tasks, CountedTask())| + One(!t.Uncounted?)
  {
    HavingPut(s.tasks, c, t, AnyTask());
    HavingPut(s.tasks, c, t, CountedTask());
  }

  lemma FateMoves(s: State, c: ConnId, f: Fate)
    ensures |Having(s.fates[c := f], Is(Rejected))| + One(c in s.fates && s.fates[c] == Rejected)
            == |Having(s.fates, Is(Rejected))| + One(f == Rejected)
  {
    HavingPut(s.fates, c, f, Is(Rejected));
  }

  ghost predicate OfAcceptor(action: Action) {
    action.Accept? || action.Decide? || action.Count? || action.Spawn?
  }

  lemma AcceptorCounts(max: nat, s: State, action: Action, s': State)
    requires Counts(max, s) && OfAcceptor(action) && Next(s, action, s')
    requires HandlerOk(s, action.acceptor) && FateOk(s, s.accepted)
    requires forall c | c in s.tasks :: c in s.fates && s.fates[c] == Served
    ensures Counts(max, s')
  {
    var k := action.acceptor;
    var c := if action.Accept? then s.accepted else s.acceptors[k].conn;
    AcceptorMoves(s, k, s'.acceptors[k]);
    FateMoves(s, c, s'.fates[c]);
    if action.Spawn? {
      TaskMoves(s, c, Running);
    }
  }

  lemma OtherCounts(max: nat, s: State, action: Action, s': State)
    requires Counts(max, s) && !OfAcceptor(action) && Next(s, action, s')
    ensures Counts(max, s')
  {
    if action.Stop? {
      AcceptorMoves(s, action.acceptor, Stopped);
    } else if action.Free? {
      HavingDrop(s.tasks, action.conn, AnyTask());
      HavingDrop(s.tasks, action.conn, CountedTask());
    } else if action.Return? || action.Uncount? {
      TaskMoves(s, action.conn, s'.tasks[action.conn]);
    }
  }

  lemma HandlerStep(s: State, action: Action, s': State, j: AcceptorId)
    requires Next(s, action, s') && HandlerOk(s, j)
    requires OfAcceptor(action) ==> HandlerOk(s, action.acceptor)
    requires FateOk(s, s.accepted)
    ensures HandlerOk(s', j)
  {
  }

  lemma FateStep(s: State, action: Action, s': State, c: ConnId)
    requires Next(s, action, s') && FateOk(s, c) && FateOk(s, s.accepted)
    requires OfAcceptor(action) ==> HandlerOk(s, action.acceptor)
    ensures FateOk(s', c)
  {
  }

  lemma LinkedStep(s: State, action: Action, s': State)
    requires Next(s, action, s') && Linked(s)
    ensures Linked(s')
  {
    assert FateOk(s, s.accepted);
    forall j
      ensures HandlerOk(s', j)
    {
      assert HandlerOk(s, j);
      if OfAcceptor(action) {
        assert HandlerOk(s, action.acceptor);
      }
      HandlerStep(s, action, s', j);
    }
    forall c
      ensures FateOk(s', c)
    {
      assert FateOk(s, c);
      if OfAcceptor(action) {
        assert HandlerOk(s, action.acceptor);
      }
      FateStep(s, action, s', c);
    }
  }

  /** With every acceptor stopped, no acceptor steps and the count only falls. */
  lemma PhasedStep(max: nat, s: State, action: Action, s': State)
    requires Next(s, action, s') && Phased(s) && Counts(max, s) && Counts(max, s')
    ensures Phased(s')
  {
  }

  lemma NextInv(max: nat, s: State, action: Action, s': State)
    requires Inv(max, s) && Next(s, action, s')
    ensures Inv(max, s')
  {
    if OfAcceptor(action) {
      assert HandlerOk(s, action.acceptor) && FateOk(s, s.accepted);
      forall c | c in s.tasks
        ensures c in s.fates && s.fates[c] == Served
      {
        assert FateOk(s, c);
      }
      AcceptorCounts(max, s, action, s');
    } else {
      OtherCounts(max, s, action, s');
    }
    LinkedStep(s, action, s');
    PhasedStep(max, s, action, s');
  }
}

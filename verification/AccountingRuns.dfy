/** What the counters and the inbound policy check promise over whole runs of the handlers. */
module AccountingRuns {
  import opened ByteStrings
  import opened Counting
  import opened SpiffeIds
  import opened Policies
  import opened Accounting

  datatype History = History(states: seq<State>, actions: seq<Action>)

  ghost predicate StepAt(me: SpiffeId, h: History, n: nat)
    requires |h.states| == |h.actions| + 1 && n < |h.actions|
  {
    Next(me, h.states[n], h.actions[n], h.states[n + 1])
  }

  ghost predicate IsRun(me: SpiffeId, h: History) {
    && |h.states| == |h.actions| + 1
    && Init(h.states[0])
    && forall n | 0 <= n < |h.actions| :: StepAt(me, h, n)
  }

  lemma {:induction false} RunInv(me: SpiffeId, h: History, n: nat)
    requires IsRun(me, h) && n < |h.states|
    ensures Inv(h.states[n])
  {
    if n == 0 {
      InitInv(h.states[0]);
    } else {
      RunInv(me, h, n - 1);
      assert StepAt(me, h, n - 1);
      NextInv(me, h.states[n - 1], h.actions[n - 1], h.states[n]);
    }
  }

  // --------------------------------------------------------------- conservation

  ghost function HasStarted(): Handler -> bool {
    (h: Handler) => !h.pc.Spawned?
  }

  ghost function HasEnded(): Handler -> bool {
    (h: Handler) => h.pc.Ended?
  }

  ghost function EndedConnection(): Handler -> bool {
    (h: Handler) => h.pc.Ended? && !h.pc.how.TunnelClosed?
  }

  ghost function EndedBadly(): Handler -> bool {
    (h: Handler) => h.pc.Ended? && h.pc.how.Failed?
  }

  ghost function EndedWell(): Handler -> bool {
    (h: Handler) => h.pc.Ended? && h.pc.how.Relayed?
  }

  ghost function MidSettlement(): Handler -> bool {
    (h: Handler) => h.pc.Settling?
  }

  /** In every state of every run the gauge is the handlers started minus the handlers ended. */
  lemma GaugeIsStartedMinusEnded(me: SpiffeId, h: History, n: nat)
    requires IsRun(me, h) && n < |h.states|
    ensures var s := h.states[n];
            s.counters.active == |Having(s.handlers, HasStarted())| - |Having(s.handlers, HasEnded())|
  {
    RunInv(me, h, n);
    HavingSplit(h.states[n].handlers, HasStarted(), InGauge(), HasEnded());
  }

  /** Entry by entry implication is enough. */
  lemma HavingAtMost(s: State, f: Handler -> bool, g: Handler -> bool)
    requires forall x | x in s.handlers :: f(s.handlers[x]) ==> g(s.handlers[x])
    ensures |Having(s.handlers, f)| <= |Having(s.handlers, g)|
  {
    CardinalityMonotone(Having(s.handlers, f), Having(s.handlers, g));
  }

  /** Handlers in the middle of their settlement are the only slack in the totals. */
  ghost function EndedOrSettling(): Handler -> bool {
    (h: Handler) => EndedConnection()(h) || MidSettlement()(h)
  }

  lemma TotalIsBetween(me: SpiffeId, h: History, n: nat)
    requires IsRun(me, h) && n < |h.states|
    ensures var s := h.states[n];
            var ended, settling := |Having(s.handlers, EndedConnection())|, |Having(s.handlers, MidSettlement())|;
            ended <= s.counters.total <= ended + settling
  {
    RunInv(me, h, n);
    var s := h.states[n];
    HavingAtMost(s, EndedConnection(), Totalled());
    HavingAtMost(s, Totalled(), EndedOrSettling());
    HavingSplit(s.handlers, EndedOrSettling(), EndedConnection(), MidSettlement());
  }

  /** With no handler in the middle of its settlement, connections_total is the ended handlers other
      than tunnels, the errors are those that failed, and the duration histogram has one observation for
      each of the rest. */
  lemma TotalsAddUp(me: SpiffeId, h: History, n: nat)
    requires IsRun(me, h) && n < |h.states|
    requires Having(h.states[n].handlers, MidSettlement()) == {}
    ensures var s := h.states[n];
            && s.counters.total == |Having(s.handlers, EndedConnection())|
            && s.counters.errors == |Having(s.handlers, EndedBadly())|
            && s.counters.observations == |Having(s.handlers, EndedWell())|
            && s.counters.observations == s.counters.total - s.counters.errors
  {
    RunInv(me, h, n);
    TotalIsBetween(me, h, n);
    var s := h.states[n];
    forall x | x in s.handlers
      ensures !s.handlers[x].pc.Settling?
    {
      assert x !in Having(s.handlers, MidSettlement());
    }
    HavingAtMost(s, Errored(), EndedBadly());
    HavingAtMost(s, EndedBadly(), Errored());
    HavingAtMost(s, Observed(), EndedWell());
    HavingAtMost(s, EndedWell(), Observed());
    HavingSplit(s.handlers, EndedConnection(), EndedBadly(), EndedWell());
  }

  // --------------------------------------------------------------- each path settles once

  /** How often handler `x` has made the update `op` in the first `n` steps. */
  ghost function Performed(h: History, n: nat, x: HandlerId, op: Op): nat
    requires |h.states| == |h.actions| + 1 && n <= |h.actions|
  {
    if n == 0 then 0
    else Performed(h, n - 1, x, op)
         + One(h.actions[n - 1].id == x && OpOf(h.states[n - 1], h.actions[n - 1]) == Some(op))
  }

  ghost predicate Did(pc: Pc, op: Op) {
    if op == Start then !pc.Spawned?
    else Closing(pc) && Done(pc) <= |Ops(pc.how)| && op in Ops(pc.how)[..Done(pc)]
  }

  lemma ReplyDoesNothing(h: Handler, a: Answer, admits: bool, op: Op)
    requires HandlerOk(h) && Step(h, a, admits).Some?
    ensures Did(Step(h, a, admits).value.pc, op) == Did(h.pc, op)
  {
  }

  lemma ChargeDoesOne(pc: Pc, op: Op)
    requires pc.Settling? && pc.done < |Ops(pc.how)|
    ensures One(Did(Settled(pc.how, pc.done + 1), op)) == One(Did(pc, op)) + One(op == Ops(pc.how)[pc.done])
  {
  }

  ghost predicate DidBy(s: State, x: HandlerId, op: Op) {
    x in s.handlers && Did(s.handlers[x].pc, op)
  }

  lemma DidStep(me: SpiffeId, s: State, action: Action, s': State, x: HandlerId, op: Op)
    requires Next(me, s, action, s') && EntryOk(s, x)
    ensures One(DidBy(s', x, op)) == One(DidBy(s, x, op)) + One(action.id == x && OpOf(s, action) == Some(op))
  {
    if action.id == x {
      if action.Reply? {
        ReplyDoesNothing(s.handlers[x], action.answer, Admits(me, s.rules, s.handlers[x]), op);
      } else if action.Charge? {
        ChargeDoesOne(s.handlers[x].pc, op);
      }
    }
  }

  lemma {:induction false} PerformedIsDid(me: SpiffeId, h: History, n: nat, x: HandlerId, op: Op)
    requires IsRun(me, h) && n < |h.states|
    ensures Performed(h, n, x, op) == One(DidBy(h.states[n], x, op))
  {
    if n > 0 {
      PerformedIsDid(me, h, n - 1, x, op);
      RunInv(me, h, n - 1);
      assert StepAt(me, h, n - 1);
      assert EntryOk(h.states[n - 1], x);
      DidStep(me, h.states[n - 1], h.actions[n - 1], h.states[n], x, op);
    }
  }

  /** No handler ever makes an update twice, none gives its gauge slot back before it ends, and a handler
      that ended has counted one start, one release, and, unless it was a tunnel, one connection that is
      either one error or one observation. */
  lemma SettlesExactlyOnce(me: SpiffeId, h: History, n: nat, x: HandlerId)
    requires IsRun(me, h) && n < |h.states|
    ensures forall op :: Performed(h, n, x, op) <= 1
    ensures Performed(h, n, x, Release) == One(x in h.states[n].handlers && h.states[n].handlers[x].pc.Ended?)
    ensures x in h.states[n].handlers && h.states[n].handlers[x].pc.Ended? ==>
              var how := h.states[n].handlers[x].pc.how;
              && Performed(h, n, x, Start) == 1
              && Performed(h, n, x, Total) == One(!how.TunnelClosed?)
              && Performed(h, n, x, Error) == One(how.Failed?)
              && Performed(h, n, x, Observe) == One(how.Relayed?)
              && (how.Relayed? ==> Performed(h, n, x, AddBytes(how.up + how.down)) == 1)
  {
    forall op
      ensures Performed(h, n, x, op) == One(DidBy(h.states[n], x, op))
    {
      PerformedIsDid(me, h, n, x, op);
    }
    RunInv(me, h, n);
    assert EntryOk(h.states[n], x);
    if x in h.states[n].handlers {
      DidAtEnd(h.states[n].handlers[x]);
    }
  }

  lemma DidAtEnd(h: Handler)
    requires HandlerOk(h)
    ensures Did(h.pc, Release) <==> h.pc.Ended?
    ensures h.pc.Ended? ==>
              && (Did(h.pc, Total) <==> !h.pc.how.TunnelClosed?)
              && (Did(h.pc, Error) <==> h.pc.how.Failed?)
              && (Did(h.pc, Observe) <==> h.pc.how.Relayed?)
              && (h.pc.how.Relayed? ==> Did(h.pc, AddBytes(h.pc.how.up + h.pc.how.down)))
  {
    if h.pc.Ended? {
      var ops := Ops(h.pc.how);
      assert ops[..|ops|] == ops;
      if h.pc.how.Relayed? {
        assert ops[0] == Observe && ops[1] == Total && ops[2].AddBytes? && ops[3] == Release;
      } else if h.pc.how.Failed? {
        assert ops[0] == Total && ops[1] == Error && ops[2] == Release;
      } else {
        assert ops[0] == Release;
      }
    }
  }

  // --------------------------------------------------------------- every path settles

  const LONGEST_HANDLER := 11

  /** Own steps a handler has left at most. */
  ghost function Ahead(pc: Pc): nat {
    match pc
    case Spawned => LONGEST_HANDLER
    case Resolving => 10
    case Joining => 9
    case Authorising => 8
    case Detecting => 7
    case Forwarding(_) => 6
    case Routing => 6
    case Connecting => 6
    case Copying => 5
    case Tunnelling => 2
    case Settling(how, done) => if done < |Ops(how)| then |Ops(how)| - done else 0
    case Ended(_) => 0
  }

  /** Steps of handler `x` itself: not its creation, and not the bytes its relay carries. */
  ghost function OwnSteps(h: History, n: nat, x: HandlerId): nat
    requires n <= |h.actions|
  {
    if n == 0 then 0
    else OwnSteps(h, n - 1, x)
         + One(h.actions[n - 1].id == x && !h.actions[n - 1].Begin? && !h.actions[n - 1].Carry?)
  }

  ghost function AheadOf(s: State, x: HandlerId): nat {
    if x in s.handlers then Ahead(s.handlers[x].pc) else LONGEST_HANDLER
  }

  lemma ReplyAdvances(h: Handler, a: Answer, admits: bool)
    requires HandlerOk(h) && Step(h, a, admits).Some?
    ensures Ahead(Step(h, a, admits).value.pc) < Ahead(h.pc)
  {
  }

  lemma OwnStepAdvances(me: SpiffeId, s: State, action: Action, s': State, x: HandlerId)
    requires Next(me, s, action, s') && EntryOk(s, x)
    ensures AheadOf(s', x) + One(action.id == x && !action.Begin? && !action.Carry?) <= AheadOf(s, x)
  {
    if action.id == x && action.Reply? {
      ReplyAdvances(s.handlers[x], action.answer, Admits(me, s.rules, s.handlers[x]));
    }
  }

  lemma {:induction false} StepsPlusAhead(me: SpiffeId, h: History, n: nat, x: HandlerId)
    requires IsRun(me, h) && n < |h.states|
    ensures OwnSteps(h, n, x) + AheadOf(h.states[n], x) <= LONGEST_HANDLER
  {
    if n > 0 {
      StepsPlusAhead(me, h, n - 1, x);
      RunInv(me, h, n - 1);
      assert StepAt(me, h, n - 1);
      assert EntryOk(h.states[n - 1], x);
      OwnStepAdvances(me, h.states[n - 1], h.actions[n - 1], h.states[n], x);
    }
  }

  /** Some step of the handler's own is enabled. */
  ghost predicate CanMove(me: SpiffeId, s: State, x: HandlerId) {
    exists action: Action :: action.id == x && !action.Begin? && !action.Carry? && HandlerAfter(me, s, action).Some?
  }

  lemma UnendedCanMove(me: SpiffeId, s: State, x: HandlerId)
    requires EntryOk(s, x) && x in s.handlers && !s.handlers[x].pc.Ended?
    ensures CanMove(me, s, x)
  {
    var h := s.handlers[x];
    var action :=
      match h.pc
      case Spawned => RecordStart(x)
      case Resolving => Reply(x, Resolved(false))
      case Joining => Reply(x, Joined(None, false))
      case Authorising => Reply(x, Decided(false))
      case Detecting => Reply(x, Read(None))
      case Forwarding(_) => Reply(x, Wrote(false, 0))
      case Routing => Reply(x, Routed(false))
      case Connecting => Reply(x, Connected(false))
      case Copying => Reply(x, Copied(false, 0, 0))
      case Tunnelling => Reply(x, Closed)
      case _ => Charge(x);
    assert HandlerAfter(me, s, action).Some?;
  }

  /** Every path settles: a handler takes at most eleven steps of its own, and as long as it has not
      ended, that is, not settled, it can take one. */
  lemma EveryHandlerSettles(me: SpiffeId, h: History, n: nat, x: HandlerId)
    requires IsRun(me, h) && n < |h.states| && x in h.states[n].handlers
    ensures OwnSteps(h, n, x) <= LONGEST_HANDLER
    ensures h.states[n].handlers[x].pc.Ended? || CanMove(me, h.states[n], x)
  {
    StepsPlusAhead(me, h, n, x);
    RunInv(me, h, n);
    assert EntryOk(h.states[n], x);
    if !h.states[n].handlers[x].pc.Ended? {
      UnendedCanMove(me, h.states[n], x);
    }
  }

  // --------------------------------------------------------------- authorisation

  ghost predicate JoinedAt(h: History, j: nat, x: HandlerId, p: SpiffeId) {
    j < |h.actions| && h.actions[j] == Reply(x, Joined(Some(p), true))
  }

  /** In step `i` handler `x` has the policy evaluated for its peer `p` reaching this workload. */
  ghost predicate EvaluatedAt(h: History, i: nat, x: HandlerId, p: SpiffeId) {
    && i < |h.actions| && i < |h.states| && h.actions[i].Reply? && h.actions[i].id == x && h.actions[i].answer.Decided?
    && x in h.states[i].handlers && h.states[i].handlers[x].peer == Some(p)
  }

  /** What the policy in force at step `i` decides. */
  ghost function DecisionAt(me: SpiffeId, h: History, i: nat, p: SpiffeId): Decision
    requires i < |h.states|
  {
    Verdict(h.states[i].rules, p, me)
  }

  /** A handler at the policy check finished its handshake with that very peer. */
  lemma {:induction false} JoinedHasCause(me: SpiffeId, h: History, n: nat, x: HandlerId) returns (j: nat)
    requires IsRun(me, h) && n < |h.states| && x in h.states[n].handlers
    requires h.states[n].handlers[x].pc.Authorising?
    ensures j < n && h.states[n].handlers[x].peer.Some?
    ensures JoinedAt(h, j, x, h.states[n].handlers[x].peer.value)
  {
    assert n > 0;
    assert StepAt(me, h, n - 1);
    if x in h.states[n - 1].handlers && h.states[n - 1].handlers[x].pc.Authorising? {
      j := JoinedHasCause(me, h, n - 1, x);
    } else {
      j := n - 1;
    }
  }

  /** An Allow is recorded only by the policy's answer, and its peer never changes afterwards. */
  lemma AllowStep(me: SpiffeId, s: State, action: Action, s': State, x: HandlerId)
    requires Next(me, s, action, s') && EntryOk(s, x) && x in s'.handlers && s'.handlers[x].allowed
    ensures x in s.handlers && s'.handlers[x].peer == s.handlers[x].peer
    ensures !s.handlers[x].allowed ==>
              && s.handlers[x].pc.Authorising? && action.Reply? && action.id == x
              && action.answer.Decided? && Admits(me, s.rules, s.handlers[x])
  {
  }

  lemma {:induction false} AllowHasCause(me: SpiffeId, h: History, n: nat, x: HandlerId) returns (j: nat, i: nat)
    requires IsRun(me, h) && n < |h.states| && x in h.states[n].handlers && h.states[n].handlers[x].allowed
    ensures j < i < n && h.states[n].handlers[x].peer.Some?
    ensures JoinedAt(h, j, x, h.states[n].handlers[x].peer.value)
    ensures EvaluatedAt(h, i, x, h.states[n].handlers[x].peer.value)
    ensures DecisionAt(me, h, i, h.states[n].handlers[x].peer.value) == Allow
  {
    assert n > 0;
    RunInv(me, h, n - 1);
    assert StepAt(me, h, n - 1);
    assert EntryOk(h.states[n - 1], x);
    AllowStep(me, h.states[n - 1], h.actions[n - 1], h.states[n], x);
    if h.states[n - 1].handlers[x].allowed {
      j, i := AllowHasCause(me, h, n - 1, x);
    } else {
      j := JoinedHasCause(me, h, n - 1, x);
      i := n - 1;
    }
  }

  /** The connection whose policy check covers handler `x`: its own, or its tunnel's. */
  ghost function Gate(s: State, x: HandlerId): HandlerId
    requires x in s.handlers
  {
    if s.handlers[x].kind.Stream? then s.handlers[x].kind.tunnel else x
  }

  /** No client byte reaches an upstream before Allow: if an inbound connection or a stream of an inbound
      tunnel has forwarded anything, then earlier the connection's handshake gave a peer identity and,
      after that, the policy in force allowed exactly that identity to reach this workload.  For a tunnel's
      streams it is the one check made when the tunnel was accepted. */
  lemma ForwardedMeansAllowed(me: SpiffeId, h: History, n: nat, x: HandlerId) returns (p: SpiffeId, j: nat, i: nat)
    requires IsRun(me, h) && n < |h.states| && x in h.states[n].handlers
    requires !h.states[n].handlers[x].kind.Outbound? && h.states[n].handlers[x].sent > 0
    ensures j < i < n
    ensures JoinedAt(h, j, Gate(h.states[n], x), p) && EvaluatedAt(h, i, Gate(h.states[n], x), p)
    ensures DecisionAt(me, h, i, p) == Allow
  {
    var s := h.states[n];
    RunInv(me, h, n);
    assert EntryOk(s, x);
    j, i := AllowHasCause(me, h, n, Gate(s, x));
    p := s.handlers[Gate(s, x)].peer.value;
  }

  ghost predicate TurnedDown(s: State, x: HandlerId) {
    && x in s.handlers
    && var h := s.handlers[x];
       h.kind.Inbound? && !h.allowed && h.sent == 0 && Closing(h.pc) && h.pc.how.Failed?
  }

  lemma TurnedDownStep(me: SpiffeId, s: State, action: Action, s': State, x: HandlerId)
    requires Next(me, s, action, s') && EntryOk(s, x) && x in s.handlers
    requires TurnedDown(s, x) ||
             (action.Reply? && action.id == x && action.answer.Decided? && !Admits(me, s.rules, s.handlers[x]))
    ensures TurnedDown(s', x)
  {
  }

  /** A denied connection forwards nothing, carries no stream and ends as one error. */
  lemma {:induction false} DeniedForwardsNothing(me: SpiffeId, h: History, i: nat, n: nat, x: HandlerId, p: SpiffeId)
    requires IsRun(me, h) && i < n < |h.states| && EvaluatedAt(h, i, x, p) && DecisionAt(me, h, i, p) != Allow
    ensures TurnedDown(h.states[n], x)
    ensures forall y | y in h.states[n].handlers :: h.states[n].handlers[y].kind != Stream(x)
    decreases n
  {
    RunInv(me, h, n - 1);
    RunInv(me, h, n);
    assert StepAt(me, h, n - 1);
    assert EntryOk(h.states[n - 1], x);
    if i < n - 1 {
      DeniedForwardsNothing(me, h, i, n - 1, x, p);
    }
    TurnedDownStep(me, h.states[n - 1], h.actions[n - 1], h.states[n], x);
    forall y | y in h.states[n].handlers
      ensures h.states[n].handlers[y].kind != Stream(x)
    {
      assert EntryOk(h.states[n], y);
    }
  }

  // --------------------------------------------------------------- one check for a whole tunnel

  /** How often the policy has been evaluated. */
  ghost function Evaluations(actions: seq<Action>): nat {
    if actions == [] then 0
    else Evaluations(actions[..|actions| - 1]) + One(Evaluates(actions[|actions| - 1]))
  }

  ghost predicate Evaluates(action: Action) {
    action.Reply? && action.answer.Decided?
  }

  /** Some run ends in `s` with `d` evaluations of the policy. */
  ghost predicate ReachedWith(me: SpiffeId, s: State, d: nat) {
    exists h: History :: IsRun(me, h) && h.states[|h.actions|] == s && Evaluations(h.actions) == d
  }

  lemma ReachInit(me: SpiffeId, s: State)
    requires Init(s)
    ensures ReachedWith(me, s, 0)
  {
    assert IsRun(me, History([s], []));
  }

  lemma ReachNext(me: SpiffeId, s: State, d: nat, action: Action, s': State)
    requires ReachedWith(me, s, d) && Next(me, s, action, s')
    ensures ReachedWith(me, s', d + One(Evaluates(action)))
  {
    var h: History :| IsRun(me, h) && h.states[|h.actions|] == s && Evaluations(h.actions) == d;
    var longer := History(h.states + [s'], h.actions + [action]);
    forall i | 0 <= i < |longer.actions|
      ensures StepAt(me, longer, i)
    {
      assert i < |h.actions| ==> StepAt(me, h, i);
    }
    assert longer.actions[..|h.actions|] == h.actions;
    assert IsRun(me, longer);
  }

  /** The state in which handler `x` has moved to `h` and the counters to `c`. */
  function Moved(s: State, x: HandlerId, h: Handler, c: Counters): State {
    State(s.handlers[x := h], c, s.rules)
  }

  lemma PeerCanJoin(me: SpiffeId, p: SpiffeId, rules: Rules) returns (s: State)
    ensures ReachedWith(me, s, 0) && s.rules == rules
    ensures s.handlers == map[0 := Handler(Inbound, Authorising, Some(p), false, 0)]
  {
    var h := Handler(Inbound, Spawned, None, false, 0);
    var s0 := State(map[], Counters(0, 0, 0, 0, 0), rules);
    var s1 := Moved(s0, 0, h, s0.counters);
    var s2 := Moved(s1, 0, h.(pc := Resolving), Charged(s1.counters, Start));
    var s3 := Moved(s2, 0, h.(pc := Joining), s2.counters);
    s := Moved(s3, 0, h.(pc := Authorising, peer := Some(p)), s2.counters);
    ReachInit(me, s0);
    ReachNext(me, s0, 0, Begin(0, Inbound), s1);
    ReachNext(me, s1, 0, RecordStart(0), s2);
    ReachNext(me, s2, 0, Reply(0, Resolved(true)), s3);
    ReachNext(me, s3, 0, Reply(0, Joined(Some(p), true)), s);
  }

  lemma TunnelCanOpen(me: SpiffeId, p: SpiffeId, rules: Rules) returns (s: State)
    requires Verdict(rules, p, me) == Allow
    ensures ReachedWith(me, s, 1)
    ensures s.handlers == map[0 := Handler(Inbound, Tunnelling, Some(p), true, 0)]
  {
    var s4 := PeerCanJoin(me, p, rules);
    s := Moved(s4, 0, Handler(Inbound, Tunnelling, Some(p), true, 0), s4.counters);
    ReachNext(me, s4, 0, Reply(0, Decided(true)), s);
  }

  lemma StreamCanForward(me: SpiffeId, s: State, d: nat, t: HandlerId, y: HandlerId) returns (s': State)
    requires ReachedWith(me, s, d) && Open(s, t) && y !in s.handlers
    ensures ReachedWith(me, s', d) && s'.handlers == s.handlers[y := Handler(Stream(t), Copying, None, false, 1)]
  {
    var h := Handler(Stream(t), Spawned, None, false, 0);
    var s1 := Moved(s, y, h, s.counters);
    var s2 := Moved(s1, y, h.(pc := Connecting), Charged(s.counters, Start));
    var s3 := Moved(s2, y, h.(pc := Copying), s2.counters);
    s' := Moved(s3, y, h.(pc := Copying, sent := 1), s2.counters);
    ReachNext(me, s, d, Begin(y, Stream(t)), s1);
    ReachNext(me, s1, d, RecordStart(y), s2);
    ReachNext(me, s2, d, Reply(y, Connected(true)), s3);
    ReachNext(me, s3, d, Carry(y, 1), s');
  }

  /** Streams are not checked one by one: whenever the policy allows a peer there is a run in which two
      streams of one of its tunnels have forwarded bytes and the policy was evaluated exactly once. */
  lemma StreamsShareOneCheck(me: SpiffeId, p: SpiffeId, rules: Rules)
    requires Verdict(rules, p, me) == Allow
    ensures exists s ::
              && ReachedWith(me, s, 1) && 1 in s.handlers && 2 in s.handlers
              && s.handlers[1].kind == Stream(0) == s.handlers[2].kind
              && s.handlers[1].sent > 0 && s.handlers[2].sent > 0
  {
    var s := TunnelCanOpen(me, p, rules);
    var s1 := StreamCanForward(me, s, 1, 0, 1);
    var s2 := StreamCanForward(me, s1, 1, 0, 2);
    assert s2.handlers[1] == s1.handlers[1];
  }
}

/** Why a routing call ends as it does: its outcome is told by the answers it got on its way. */
module RoutingOutcomes {
  import opened ByteStrings
  import opened SpiffeIds
  import opened Policies
  import opened MuxPools
  import opened Routing
  import opened RoutingInvariants

  /** What ends a call: a stream opened, a handshake or the first stream of a new tunnel failed, the policy
      refused the peer, a connection without mux was allowed, or the last attempt failed. */
  datatype Ending = Opened(tunnel: TunnelId) | Lost | Refused | Plain(peer: SpiffeId) | GaveUp

  /** The answers a call has got so far: failed attempts over the pool, and what ended it. */
  datatype Tale = Tale(failures: nat, ending: Option<Ending>)

  function Outcome(ending: Ending): Route {
    match ending
    case Opened(t) => Mux(t)
    case Lost => Failed
    case Refused => Denied
    case Plain(peer) => Legacy(peer)
    case GaveUp => Failed
  }

  function OneMoreFailure(tale: Tale): Tale {
    Tale(tale.failures + 1, if tale.failures + 1 == 4 then Some(GaveUp) else tale.ending)
  }

  /** What the answer tells a task at its program counter, given whether its peer is allowed and whether its
      address has any tunnel. */
  function Told(pc: Pc, answer: Answer, allowed: bool, none: bool, tale: Tale): Tale {
    if pc.Opening? && answer == OpenOk then tale.(ending := Some(Opened(pc.tunnel)))
    else if pc.Opening? && answer == OpenFailed && pc.own then tale.(ending := Some(Lost))
    else if pc.Opening? && answer == OpenFailed then OneMoreFailure(tale)
    else if pc.PickAny? && none then OneMoreFailure(tale)
    else if pc.Connect? && answer.HandshakeFailed? then tale.(ending := Some(Lost))
    else if (pc.Check? || pc.Connected?) && !allowed then tale.(ending := Some(Refused))
    else if pc.Connected? && !pc.mux then tale.(ending := Some(Plain(pc.peer)))
    else tale
  }

  /** The policy in force allows the peer a check at `pc` is about. */
  ghost predicate AllowedPeer(c: Config, s: State, pc: Pc) {
    PeerAt(s, pc).Some? && Verdict(s.rules, c.localId, PeerAt(s, pc).value) == Allow
  }

  ghost function ToldBy(c: Config, s: State, action: Action, x: TaskId, tale: Tale): Tale {
    if action.Run? && action.task == x && x in s.tasks then
      var task := s.tasks[x];
      Told(task.pc, action.answer, AllowedPeer(c, s, task.pc), Pool(s, task.addr) == [], tale)
    else tale
  }

  /** The answers task `x` got in the first `n` steps of a run. */
  ghost function TaleOf(c: Config, h: History, n: nat, x: TaskId): Tale
    requires n <= |h.actions| && n <= |h.states|
  {
    if n == 0 then Tale(0, None)
    else ToldBy(c, h.states[n - 1], h.actions[n - 1], x, TaleOf(c, h, n - 1, x))
  }

  // --------------------------------------------------------------- the tale fits the task

  predicate TaleFits(task: Task, tale: Tale) {
    if task.pc.Finish? || task.pc.Routed? then
      && tale.ending.Some? && task.pc.route == Outcome(tale.ending.value)
      && (tale.ending == Some(GaveUp) ==> tale.failures == 4)
    else if task.pc.Evicting? && task.pc.own then tale.ending == Some(Lost)
    else if task.pc.Evicting? then
      tale.failures == task.attempt + 1 && tale.ending == if tale.failures == 4 then Some(GaveUp) else None
    else tale.failures == task.attempt && tale.ending == None
  }

  lemma StreamTold(task: Task, v: View, answer: Answer, e: Effect, tale: Tale)
    requires StreamStep(task, v, answer) == Some(e) && TaleFits(task, tale) && task.attempt < ATTEMPTS
    ensures e.next.Some? && TaleFits(e.next.value, Told(task.pc, answer, v.allowed, v.pool == [], tale))
  {
  }

  lemma EstablishTold(task: Task, v: View, answer: Answer, e: Effect, tale: Tale)
    requires EstablishStep(task, v, answer) == Some(e) && TaleFits(task, tale)
    ensures e.next.Some? && TaleFits(e.next.value, Told(task.pc, answer, v.allowed, v.pool == [], tale))
  {
  }

  lemma LoopTold(mux: bool, task: Task, v: View, answer: Answer, e: Effect, tale: Tale)
    requires !InStream(task.pc) && !InEstablish(task.pc) && !Scanning(task.pc)
    requires LoopStep(mux, task, v) == Some(e) && TaleFits(task, tale)
    ensures e.next.Some? && TaleFits(e.next.value, Told(task.pc, answer, v.allowed, v.pool == [], tale))
  {
  }

  /** A scan for any tunnel finds one unless there is none. */
  lemma AnyIsFound(read: seq<(TunnelId, nat)>)
    ensures PickRead(read, None).None? <==> read == []
  {
    if read != [] {
      assert Eligible(LoadsRead(read)[0], None);
    }
  }

  lemma ScanTold(task: Task, v: View, answer: Answer, e: Effect, tale: Tale)
    requires Scanning(task.pc) && Aligned(task.read, v.pool) && task.attempt < ATTEMPTS
    requires ScanStep(task, v) == Some(e) && TaleFits(task, tale)
    ensures e.next.Some? && TaleFits(e.next.value, Told(task.pc, answer, v.allowed, v.pool == [], tale))
  {
    AnyIsFound(task.read);
  }

  lemma EffectTold(mux: bool, task: Task, v: View, answer: Answer, e: Effect, tale: Tale)
    requires EffectOf(mux, task, v, answer) == Some(e) && Poised(mux, task, v) && TaleFits(task, tale)
    ensures e.next.Some? && TaleFits(e.next.value, Told(task.pc, answer, v.allowed, v.pool == [], tale))
  {
    if InStream(task.pc) {
      StreamTold(task, v, answer, e, tale);
    } else if InEstablish(task.pc) {
      EstablishTold(task, v, answer, e, tale);
    } else if Scanning(task.pc) {
      ScanTold(task, v, answer, e, tale);
    } else {
      LoopTold(mux, task, v, answer, e, tale);
    }
  }

  ghost predicate TaleOk(s: State, x: TaskId, tale: Tale) {
    && (x in s.tasks ==> TaleFits(s.tasks[x], tale))
    && (x >= s.nextTask ==> tale == Tale(0, None))
  }

  lemma TaleStep(c: Config, s: State, action: Action, s': State, x: TaskId, tale: Tale)
    requires Inv(c, s) && Next(c, s, action, s') && TaleOk(s, x, tale)
    ensures TaleOk(s', x, ToldBy(c, s, action, x, tale))
  {
    if x in s.tasks {
      assert TaskOk(c, s, x);
    }
    if action.Run? && action.task == x {
      EffectTold(c.muxEnabled, s.tasks[x], ViewOf(c, s, s.tasks[x]), action.answer, EffectIn(c, s, action).value, tale);
    }
  }

  lemma {:induction false} RunTale(c: Config, h: History, n: nat, x: TaskId)
    requires IsRun(c, h) && n < |h.states|
    ensures TaleOk(h.states[n], x, TaleOf(c, h, n, x))
  {
    if n > 0 {
      RunTale(c, h, n - 1, x);
      RunInv(c, h, n - 1);
      assert StepAt(c, h, n - 1);
      TaleStep(c, h.states[n - 1], h.actions[n - 1], h.states[n], x, TaleOf(c, h, n - 1, x));
    }
  }

  /** A routing call returns what its answers say, and nothing else: a stream exactly when one opened on that
      tunnel, a plain connection exactly when one without mux was allowed, a denial exactly when the policy
      refused, and a failure exactly when a handshake or a new tunnel's first stream failed, or all four
      attempts over the pool did.  Until one of these happens the call goes on, and then it ends. */
  lemma OutcomeIsTold(c: Config, h: History, n: nat, x: TaskId)
    requires IsRun(c, h) && n < |h.states| && x in h.states[n].tasks
    ensures var pc, tale := h.states[n].tasks[x].pc, TaleOf(c, h, n, x);
            && (pc.Routed? ==> tale.ending.Some? && pc.route == Outcome(tale.ending.value))
            && (tale.ending.Some? ==> pc.Evicting? || pc.Finish? || pc.Routed?)
            && (tale.ending == Some(GaveUp) ==> tale.failures == 4)
            && (tale.ending == None ==> tale.failures < 4)
  {
    RunTale(c, h, n, x);
    RunInv(c, h, n);
    assert TaskOk(c, h.states[n], x);
  }

  /** The step at which a call was ended. */
  lemma {:induction false} EndingHasCause(c: Config, h: History, n: nat, x: TaskId) returns (i: nat)
    requires IsRun(c, h) && n < |h.states| && TaleOf(c, h, n, x).ending.Some?
    ensures i < n && h.actions[i].Run? && h.actions[i].task == x && x in h.states[i].tasks
    ensures TaleOf(c, h, i, x).ending != TaleOf(c, h, n, x).ending == TaleOf(c, h, i + 1, x).ending
  {
    if TaleOf(c, h, n - 1, x).ending == TaleOf(c, h, n, x).ending {
      i := EndingHasCause(c, h, n - 1, x);
    } else {
      i := n - 1;
    }
  }

  // --------------------------------------------------------------- what scans decide

  function PickedAt(pc: Pc): Option<TunnelId> {
    if pc.Check? || pc.Unlock? then Some(pc.tunnel) else None
  }

  /** Where a scan leaves its task, by the loads it has read: with the first least loaded tunnel among the
      eligible ones; with none eligible the fast path goes for the lock, the recheck for growth, and the scan
      at the hard cap for another attempt. */
  ghost predicate Scanned(task: Task, k: Task) {
    var loads := LoadsRead(task.read);
    && k.read == []
    && (forall i: nat :: IsLeast(loads, CapAtPc(task.pc), i) ==> PickedAt(k.pc) == Some(task.read[i].0))
    && ((forall i | 0 <= i < |loads| :: !Eligible(loads[i], CapAtPc(task.pc))) <==> PickedAt(k.pc) == None)
    && (PickedAt(k.pc) == None ==>
          && (task.pc.Pick? ==> k.pc == FindLock)
          && (task.pc.Recheck? ==> k.pc == Grow)
          && (task.pc.PickAny? ==> k == Retried(task.(read := []))))
  }

  lemma PickDecides(task: Task, e: Effect)
    requires Scanning(task.pc) && PickStep(task) == Some(e)
    ensures e.next.Some? && Scanned(task, e.next.value)
  {
    forall i: nat | IsLeast(LoadsRead(task.read), CapAtPc(task.pc), i)
      ensures PickedAt(e.next.value.pc) == Some(task.read[i].0)
    {
      LeastIsUnique(LoadsRead(task.read), CapAtPc(task.pc), i);
    }
  }

  /** A scan decides once it has read the load of each tunnel of the list, in order, and then as it should. */
  lemma ScanDecides(c: Config, h: History, n: nat, x: TaskId, answer: Answer)
    requires IsRun(c, h) && n < |h.actions| && h.actions[n] == Run(x, answer) && x in h.states[n].tasks
    requires Scanning(h.states[n].tasks[x].pc)
    ensures var task, pool := h.states[n].tasks[x], Pool(h.states[n], h.states[n].tasks[x].addr);
            && Aligned(task.read, pool) && x in h.states[n + 1].tasks
            && var k := h.states[n + 1].tasks[x];
            if |task.read| < |pool| then
              k == task.(read := task.read + [(pool[|task.read|], Live(h.states[n], pool[|task.read|]))])
            else Scanned(task, k)
  {
    RunInv(c, h, n);
    assert StepAt(c, h, n) && TaskOk(c, h.states[n], x);
    var s := h.states[n];
    var task := s.tasks[x];
    if |task.read| >= |Pool(s, task.addr)| {
      PickDecides(task, EffectIn(c, s, h.actions[n]).value);
    }
  }

  lemma LeastIsUnique(loads: seq<nat>, cap: Option<nat>, i: nat)
    ensures IsLeast(loads, cap, i) ==> Least(loads, cap) == Some(i)
  {
  }

  // --------------------------------------------------------------- without mux

  /** With mux disabled a call never touches the pool before its handshake: it goes straight to one. */
  predicate Direct(task: Task) {
    && task.attempt == 0 && task.guard == None && task.read == []
    && (|| task.pc.Start? || InEstablish(task.pc) || task.pc.Routed?
        || ((task.pc.Reserve? || task.pc.Opening? || task.pc.Evicting?) && task.pc.own))
  }

  lemma DirectStep(task: Task, v: View, answer: Answer, e: Effect)
    requires EffectOf(false, task, v, answer) == Some(e) && Direct(task)
    ensures e.next.Some? && Direct(e.next.value)
  {
  }

  lemma {:induction false} DirectWithoutMux(c: Config, h: History, n: nat, x: TaskId)
    requires IsRun(c, h) && n < |h.states| && !c.muxEnabled && x in h.states[n].tasks
    ensures Direct(h.states[n].tasks[x])
  {
    assert StepAt(c, h, n - 1);
    var s, action := h.states[n - 1], h.actions[n - 1];
    if x in s.tasks {
      DirectWithoutMux(c, h, n - 1, x);
      if action.Run? && action.task == x {
        DirectStep(s.tasks[x], ViewOf(c, s, s.tasks[x]), action.answer, EffectIn(c, s, action).value);
      }
    }
  }
}

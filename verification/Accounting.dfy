/** Connection accounting: the metrics counters, and the three kinds of handler that charge them
    (an accepted inbound connection, an outbound connection, one stream of an inbound mux tunnel).
    Handlers interleave freely, every single counter update is a step of its own, and the policy may be
    changed between any two steps. */
module Accounting {
  import opened ByteStrings
  import opened Counting
  import opened SpiffeIds
  import opened Policies

  type HandlerId = nat

  const PROTOCOL_DETECT := 32

  datatype Counters = Counters(
    total: nat,           // connections_total
    errors: nat,          // connection_errors_total
    active: int,          // connections_active, a gauge
    observations: nat,    // observations of connection_duration
    bytes: nat)           // bytes_total

  /** One update of one counter. */
  datatype Op = Observe | Total | AddBytes(n: nat) | Error | Start | Release

  function Charged(c: Counters, op: Op): Counters {
    match op
    case Observe => c.(observations := c.observations + 1)
    case Total => c.(total := c.total + 1)
    case AddBytes(n) => c.(bytes := c.bytes + n)
    case Error => c.(errors := c.errors + 1)
    case Start => c.(active := c.active + 1)
    case Release => c.(active := c.active - 1)
  }

  /** How a handler ends. */
  datatype Settlement = Relayed(up: nat, down: nat) | Failed | TunnelClosed

  /** The updates of `record_connection`, `record_connection_failed` and `record_tunnel_closed`. */
  function Ops(how: Settlement): seq<Op> {
    match how
    case Relayed(up, down) => [Observe, Total, AddBytes(up + down), Release]
    case Failed => [Total, Error, Release]
    case TunnelClosed => [Release]
  }

  datatype Kind = Inbound | Outbound | Stream(tunnel: HandlerId)

  /** Where a handler is; the names say what it waits for. */
  datatype Pc =
    | Spawned
    | Resolving
    | Joining                        // mTLS accept and upstream connect, overlapped
    | Authorising
    | Tunnelling
    | Detecting
    | Forwarding(prefix: nat)
    | Routing
    | Connecting
    | Copying
    | Settling(how: Settlement, done: nat)
    | Ended(how: Settlement)

  /** `sent` counts the client's bytes handed to the upstream, `allowed` records an Allow for `peer`. */
  datatype Handler = Handler(kind: Kind, pc: Pc, peer: Option<SpiffeId>, allowed: bool, sent: nat)

  /** What the world answers a waiting handler. */
  datatype Answer =
    | Resolved(ok: bool)
    | Joined(tls: Option<SpiffeId>, connected: bool)
    | Decided(mux: bool)                // the policy's decision is read from the state
    | Closed
    | Read(bytes: Option<nat>)
    | Wrote(ok: bool, n: nat)
    | Routed(ok: bool)
    | Connected(ok: bool)
    | Copied(ok: bool, up: nat, down: nat)

  function Fail(h: Handler): Handler {
    h.(pc := Settling(Failed, 0))
  }

  function Goto(h: Handler, ok: bool, pc: Pc): Handler {
    if ok then h.(pc := pc) else Fail(h)
  }

  /** The handler's next state, or None when it does not wait for this answer.  `admits` is what the
      policy decides about the peer. */
  function Step(h: Handler, a: Answer, admits: bool): Option<Handler> {
    match (h.pc, a)
    case (Resolving, Resolved(ok)) => Some(Goto(h, ok, if h.kind.Inbound? then Joining else Routing))
    case (Joining, Joined(tls, connected)) => Some(Goto(h.(peer := tls), tls.Some? && connected, Authorising))
    case (Authorising, Decided(mux)) =>
      Some(Goto(h.(allowed := admits), admits, if mux then Tunnelling else Detecting))
    case (Tunnelling, Closed) => Some(h.(pc := Settling(TunnelClosed, 0)))
    case (Detecting, Read(bytes)) =>
      if bytes.Some? && bytes.value > PROTOCOL_DETECT then None
      else if bytes.Some? && bytes.value > 0 then Some(h.(pc := Forwarding(bytes.value)))
      else Some(Fail(h))
    case (Forwarding(prefix), Wrote(ok, n)) =>
      if n > prefix || (ok && n != prefix) then None
      else Some(Goto(h.(sent := h.sent + n), ok, Copying))
    case (Routing, Routed(ok)) => Some(Goto(h, ok, Copying))
    case (Connecting, Connected(ok)) => Some(Goto(h, ok, Copying))
    case (Copying, Copied(ok, up, down)) => Some(Goto(h, ok, Settling(Relayed(up, down), 0)))
    case _ => None
  }

  datatype State = State(handlers: map<HandlerId, Handler>, counters: Counters, rules: Rules)

  /** The policy allows the handler's peer to reach this workload. */
  ghost predicate Admits(me: SpiffeId, rules: Rules, h: Handler) {
    h.peer.Some? && Verdict(rules, h.peer.value, me) == Allow
  }

  datatype Action =
    | Begin(id: HandlerId, kind: Kind)
    | RecordStart(id: HandlerId)
    | Reply(id: HandlerId, answer: Answer)
    | Carry(id: HandlerId, n: nat)
    | Charge(id: HandlerId)

  ghost predicate Init(s: State) {
    s.handlers == map[] && s.counters == Counters(0, 0, 0, 0, 0)
  }

  /** A handler with `done` of its settlement's updates behind it. */
  ghost function Settled(how: Settlement, done: nat): Pc {
    if done == |Ops(how)| then Ended(how) else Settling(how, done)
  }

  /** The counter update an action makes, if any. */
  ghost function OpOf(s: State, action: Action): Option<Op> {
    if action.RecordStart? then Some(Start)
    else if action.Charge? && action.id in s.handlers then
      var pc := s.handlers[action.id].pc;
      if pc.Settling? && pc.done < |Ops(pc.how)| then Some(Ops(pc.how)[pc.done]) else None
    else None
  }

  ghost function ChargedIf(c: Counters, op: Option<Op>): Counters {
    if op.Some? then Charged(c, op.value) else c
  }

  /** An inbound tunnel that still serves streams. */
  ghost predicate Open(s: State, tunnel: HandlerId) {
    tunnel in s.handlers && s.handlers[tunnel].pc.Tunnelling?
  }

  /** The acting handler afterwards, or None when the action is not enabled. */
  ghost function HandlerAfter(me: SpiffeId, s: State, action: Action): Option<Handler> {
    if action.Begin? then
      if action.id in s.handlers then None
      else if action.kind.Stream? && !Open(s, action.kind.tunnel) then None
      else Some(Handler(action.kind, Spawned, None, false, 0))
    else if action.id !in s.handlers then None
    else
      var h := s.handlers[action.id];
      match action
      case Begin(_, _) => None
      case RecordStart(_) =>
        if h.pc.Spawned? then Some(h.(pc := if h.kind.Stream? then Connecting else Resolving)) else None
      case Reply(_, a) => Step(h, a, Admits(me, s.rules, h))
      case Carry(_, n) => if h.pc.Copying? then Some(h.(sent := h.sent + n)) else None
      case Charge(_) =>
        if OpOf(s, action).Some? then Some(h.(pc := Settled(h.pc.how, h.pc.done + 1))) else None
  }

  ghost predicate Next(me: SpiffeId, s: State, action: Action, s': State) {
    var after := HandlerAfter(me, s, action);
    && after.Some?
    && s'.handlers == s.handlers[action.id := after.value]
    && s'.counters == ChargedIf(s.counters, OpOf(s, action))
  }

  // --------------------------------------------------------------- what each counter counts

  /** How many of the settlement's updates a handler has made. */
  ghost function Done(pc: Pc): nat {
    if pc.Settling? then pc.done else if pc.Ended? then |Ops(pc.how)| else 0
  }

  ghost function InGauge(): Handler -> bool {
    (h: Handler) => !h.pc.Spawned? && !h.pc.Ended?
  }

  ghost function Observed(): Handler -> bool {
    (h: Handler) => (h.pc.Settling? || h.pc.Ended?) && h.pc.how.Relayed? && Done(h.pc) > 0
  }

  ghost function Totalled(): Handler -> bool {
    (h: Handler) => (h.pc.Settling? || h.pc.Ended?) &&
                    ((h.pc.how.Relayed? && Done(h.pc) > 1) || (h.pc.how.Failed? && Done(h.pc) > 0))
  }

  ghost function Errored(): Handler -> bool {
    (h: Handler) => (h.pc.Settling? || h.pc.Ended?) && h.pc.how.Failed? && Done(h.pc) > 1
  }

  ghost predicate Tallied(s: State) {
    && s.counters.active == |Having(s.handlers, InGauge())|
    && s.counters.observations == |Having(s.handlers, Observed())|
    && s.counters.total == |Having(s.handlers, Totalled())|
    && s.counters.errors == |Having(s.handlers, Errored())|
  }

  ghost predicate Closing(pc: Pc) {
    pc.Settling? || pc.Ended?
  }

  /** Before the policy check. */
  ghost predicate Unchecked(pc: Pc) {
    pc.Spawned? || pc.Resolving? || pc.Joining? || pc.Authorising?
  }

  /** Only this kind of handler gets here. */
  ghost predicate KindFits(kind: Kind, pc: Pc) {
    && (pc.Resolving? ==> !kind.Stream?)
    && (pc.Joining? || pc.Authorising? || pc.Tunnelling? || pc.Detecting? || pc.Forwarding? ==> kind.Inbound?)
    && (pc.Routing? ==> kind.Outbound?)
    && (pc.Connecting? ==> kind.Stream?)
    && (Closing(pc) && pc.how.TunnelClosed? ==> kind.Inbound?)
  }

  /** An inbound handler past the check was allowed in, and until then it has sent nothing. */
  ghost predicate CheckedFirst(h: Handler) {
    && (h.allowed ==> h.kind.Inbound? && h.peer.Some? && !Unchecked(h.pc))
    && (h.kind.Inbound? && !h.allowed ==> h.sent == 0 && (Unchecked(h.pc) || (Closing(h.pc) && h.pc.how.Failed?)))
    && (h.sent > 0 ==> h.pc.Copying? || Closing(h.pc))
  }

  ghost predicate HandlerOk(h: Handler) {
    && (h.pc.Settling? ==> h.pc.done < |Ops(h.pc.how)|)
    && KindFits(h.kind, h.pc)
    && (h.pc.Authorising? ==> h.peer.Some?)
    && CheckedFirst(h)
  }

  ghost predicate Owned(s: State, h: Handler) {
    h.kind.Stream? ==> h.kind.tunnel in s.handlers && s.handlers[h.kind.tunnel].allowed
  }

  ghost predicate EntryOk(s: State, x: HandlerId) {
    x in s.handlers ==> HandlerOk(s.handlers[x]) && Owned(s, s.handlers[x])
  }

  ghost predicate Inv(s: State) {
    Tallied(s) && forall x :: EntryOk(s, x)
  }

  lemma InitInv(s: State)
    requires Init(s)
    ensures Inv(s)
  {
  }

  lemma StepOk(h: Handler, a: Answer, admits: bool)
    requires HandlerOk(h) && Step(h, a, admits).Some?
    ensures HandlerOk(Step(h, a, admits).value) && (h.allowed ==> Step(h, a, admits).value.allowed)
    ensures Step(h, a, admits).value.kind == h.kind
  {
  }

  /** The acting handler stays well formed, keeps its kind and its Allow. */
  lemma ActorOk(me: SpiffeId, s: State, action: Action, s': State)
    requires Next(me, s, action, s') && EntryOk(s, action.id)
    ensures action.id in s'.handlers && HandlerOk(s'.handlers[action.id])
    ensures action.id in s.handlers ==>
              && s'.handlers[action.id].kind == s.handlers[action.id].kind
              && (s.handlers[action.id].allowed ==> s'.handlers[action.id].allowed)
  {
    if action.Reply? {
      StepOk(s.handlers[action.id], action.answer, Admits(me, s.rules, s.handlers[action.id]));
    }
  }

  lemma EntryStep(me: SpiffeId, s: State, action: Action, s': State, x: HandlerId)
    requires Next(me, s, action, s') && EntryOk(s, action.id) && EntryOk(s, x)
    requires action.Begin? && action.kind.Stream? ==> EntryOk(s, action.kind.tunnel)
    ensures EntryOk(s', x)
  {
    ActorOk(me, s, action, s');
  }

  /** One step moves each count by what the acting handler's place says. */
  lemma Counted(s: State, x: HandlerId, h: Handler, f: Handler -> bool)
    ensures |Having(s.handlers[x := h], f)| == |Having(s.handlers, f)| - One(x in s.handlers && f(s.handlers[x])) + One(f(h))
  {
    HavingPut(s.handlers, x, h, f);
  }

  ghost predicate SameCharges(before: Handler, after: Handler) {
    && InGauge()(before) == InGauge()(after) && Observed()(before) == Observed()(after)
    && Totalled()(before) == Totalled()(after) && Errored()(before) == Errored()(after)
  }

  lemma StepChargesNothing(h: Handler, a: Answer, admits: bool)
    requires HandlerOk(h) && Step(h, a, admits).Some?
    ensures SameCharges(h, Step(h, a, admits).value)
  {
  }

  /** A charge moves exactly the counter it names. */
  lemma ChargeMovesOne(h: Handler)
    requires h.pc.Settling? && h.pc.done < |Ops(h.pc.how)|
    ensures var op := Ops(h.pc.how)[h.pc.done];
            var h' := h.(pc := Settled(h.pc.how, h.pc.done + 1));
            && InGauge()(h) && (InGauge()(h') <==> op != Release)
            && One(Observed()(h')) == One(Observed()(h)) + One(op == Observe)
            && One(Totalled()(h')) == One(Totalled()(h)) + One(op == Total)
            && One(Errored()(h')) == One(Errored()(h)) + One(op == Error)
            && op != Start
  {
  }

  lemma TalliedStep(me: SpiffeId, s: State, action: Action, s': State)
    requires Tallied(s) && Next(me, s, action, s') && EntryOk(s, action.id)
    ensures Tallied(s')
  {
    var x := action.id;
    var h := s'.handlers[x];
    Counted(s, x, h, InGauge());
    Counted(s, x, h, Observed());
    Counted(s, x, h, Totalled());
    Counted(s, x, h, Errored());
    if action.Reply? {
      StepChargesNothing(s.handlers[x], action.answer, Admits(me, s.rules, s.handlers[x]));
    } else if action.Charge? {
      ChargeMovesOne(s.handlers[x]);
    }
  }

  lemma NextInv(me: SpiffeId, s: State, action: Action, s': State)
    requires Inv(s) && Next(me, s, action, s')
    ensures Inv(s')
  {
    assert EntryOk(s, action.id);
    TalliedStep(me, s, action, s');
    forall x
      ensures EntryOk(s', x)
    {
      assert EntryOk(s, x);
      if action.Begin? && action.kind.Stream? {
        assert EntryOk(s, action.kind.tunnel);
      }
      EntryStep(me, s, action, s', x);
    }
  }
}

/** The handlers and the metrics functions as the proxies run them, one whole call at a time: with the
    policy engine, the router and the tunnel pool they call, and proved to be paths of the step-by-step
    model of accounting. */
module Handlers {
  import opened ByteStrings
  import opened Counting
  import opened SpiffeIds
  import opened Policies
  import opened MuxPools
  import Out = OutboundRoutes
  import opened Accounting
  import Routing

  ghost function ChargedAll(c: Counters, ops: seq<Op>): Counters
    decreases |ops|
  {
    if ops == [] then c else ChargedAll(Charged(c, ops[0]), ops[1..])
  }

  lemma ChargedFirst(c: Counters, op: Op, rest: seq<Op>)
    ensures ChargedAll(c, [op] + rest) == ChargedAll(Charged(c, op), rest)
  {
  }

  /** The counters after a call that ended as `how`. */
  ghost function AfterCall(c: Counters, how: Settlement): Counters {
    ChargedAll(Charged(c, Start), Ops(how))
  }

  /** A call leaves the gauge as it found it, and adds one connection, an error or an observation, or,
      for a tunnel, nothing. */
  lemma CallsAreNeutral(c: Counters, how: Settlement)
    ensures var d := AfterCall(c, how);
            && d.active == c.active
            && d.total == c.total + One(!how.TunnelClosed?)
            && d.errors == c.errors + One(how.Failed?)
            && d.observations == c.observations + One(how.Relayed?)
            && d.bytes == c.bytes + if how.Relayed? then how.up + how.down else 0
  {
    var c1 := Charged(c, Start);
    match how
    case Relayed(up, down) =>
      var c2 := Charged(c1, Observe);
      var c3 := Charged(c2, Total);
      var c4 := Charged(c3, AddBytes(up + down));
      ChargedFirst(c1, Observe, [Total, AddBytes(up + down), Release]);
      ChargedFirst(c2, Total, [AddBytes(up + down), Release]);
      ChargedFirst(c3, AddBytes(up + down), [Release]);
      ChargedFirst(c4, Release, []);
    case Failed =>
      var c2 := Charged(c1, Total);
      var c3 := Charged(c2, Error);
      ChargedFirst(c1, Total, [Error, Release]);
      ChargedFirst(c2, Error, [Release]);
      ChargedFirst(c3, Release, []);
    case TunnelClosed =>
      assert [Release] + [] == [Release];
      ChargedFirst(c1, Release, []);
  }

  class Metrics {
    var total: nat
    var errors: nat
    var active: int
    var observations: nat
    var bytes: nat

    ghost function View(): Counters
      reads this
    {
      Counters(total, errors, active, observations, bytes)
    }

    constructor ()
      ensures View() == Counters(0, 0, 0, 0, 0)
    {
      total, errors, active, observations, bytes := 0, 0, 0, 0, 0;
    }

    method RecordConnectionStart()
      modifies this
      ensures View() == Charged(old(View()), Start)
    {
      active := active + 1;
    }

    method RecordConnection(up: nat, down: nat)
      modifies this
      ensures View() == ChargedAll(old(View()), Ops(Relayed(up, down)))
    {
      observations := observations + 1;
      total := total + 1;
      bytes := bytes + (up + down);
      active := active - 1;
      CallsAreNeutral(old(View()).(active := old(active) - 1), Relayed(up, down));
    }

    method RecordConnectionFailed()
      modifies this
      ensures View() == ChargedAll(old(View()), Ops(Failed))
    {
      total := total + 1;
      errors := errors + 1;
      active := active - 1;
      CallsAreNeutral(old(View()).(active := old(active) - 1), Failed);
    }

    method RecordTunnelClosed()
      modifies this
      ensures View() == ChargedAll(old(View()), Ops(TunnelClosed))
    {
      active := active - 1;
      CallsAreNeutral(old(View()).(active := old(active) - 1), TunnelClosed);
    }

    /** Settles a relay and passes its result on: a failure is an error, never a zero-length observation. */
    method RecordRelayResult(result: Option<(nat, nat)>) returns (r: Option<(nat, nat)>, how: Settlement)
      modifies this
      ensures r == result && how == RelayOutcome(result)
      ensures View() == ChargedAll(old(View()), Ops(how))
    {
      r, how := result, RelayOutcome(result);
      if result.Some? {
        RecordConnection(result.value.0, result.value.1);
      } else {
        RecordConnectionFailed();
      }
    }
  }

  function RelayOutcome(result: Option<(nat, nat)>): Settlement {
    if result.Some? then Relayed(result.value.0, result.value.1) else Failed
  }

  function CopiedAnswer(result: Option<(nat, nat)>): Answer {
    if result.Some? then Copied(true, result.value.0, result.value.1) else Copied(false, 0, 0)
  }

  // --------------------------------------------------------------- upstreams

  datatype UpstreamTarget = Socket(addr: Addr) | Host(name: Str, port: Option<nat>)

  /** `resolve_upstream`; `lookup` is what service discovery answers, if there is any. */
  function ResolveUpstream(target: UpstreamTarget, discovery: bool, lookup: Option<seq<Addr>>): (r: Option<Addr>)
    ensures r.None? <==> target.Host? && (!discovery || lookup == None || lookup == Some([]))
    ensures target.Socket? ==> r == Some(target.addr)
    ensures target.Host? && r.Some? ==>
              && r.value.ip == lookup.value[0].ip
              && r.value.port == match target.port case Some(p) => p case None => lookup.value[0].port
  {
    match target
    case Socket(addr) => Some(addr)
    case Host(_, port) =>
      if !discovery || lookup.None? || lookup.value == [] then None
      else
        var first := lookup.value[0];
        Some(Addr(first.ip, if port.Some? then port.value else first.port))
  }

  // --------------------------------------------------------------- paths of the model

  /** Where the step-by-step handler `h` is after the answers `path`, the policy staying as it is. */
  ghost function Walk(h: Handler, path: seq<Answer>, admits: bool): Option<Handler>
    decreases |path|
  {
    if path == [] then Some(h)
    else match Walk(h, path[..|path| - 1], admits)
      case None => None
      case Some(h1) => Step(h1, path[|path| - 1], admits)
  }

  lemma WalkMore(h: Handler, path: seq<Answer>, a: Answer, admits: bool)
    ensures Walk(h, path + [a], admits) ==
            match Walk(h, path, admits) case None => None case Some(h1) => Step(h1, a, admits)
  {
    assert (path + [a])[..|path|] == path;
  }

  lemma {:induction false} WalkOn(h: Handler, path: seq<Answer>, tail: seq<Answer>, admits: bool)
    requires Walk(h, path, admits).Some?
    ensures Walk(h, path + tail, admits) == Walk(Walk(h, path, admits).value, tail, admits)
    decreases |tail|
  {
    if tail == [] {
      assert path + tail == path;
    } else {
      var front, a := tail[..|tail| - 1], tail[|tail| - 1];
      assert path + tail == path + front + [a] && tail == front + [a];
      WalkOn(h, path, front, admits);
      WalkMore(h, path + front, a, admits);
    }
  }

  lemma WalkOne(h: Handler, a: Answer, admits: bool)
    ensures Walk(h, [a], admits) == Step(h, a, admits)
  {
    WalkMore(h, [], a, admits);
    assert [] + [a] == [a];
  }

  ghost function Started(kind: Kind): Handler {
    Handler(kind, if kind.Stream? then Connecting else Resolving, None, false, 0)
  }

  /** The path leads a handler of this kind to the settlement `how`, with `sent` bytes forwarded. */
  ghost predicate LeadsTo(kind: Kind, path: seq<Answer>, admits: bool, how: Settlement, sent: nat) {
    var h := Walk(Started(kind), path, admits);
    h.Some? && h.value.pc == Settling(how, 0) && h.value.sent == sent
  }

  // --------------------------------------------------------------- inbound

  /** What the world answers during an inbound call; the call reads only the parts it gets to. */
  datatype InboundWorld = InboundWorld(
    lookup: Option<seq<Addr>>,
    tls: Option<SpiffeId>,
    connected: bool,
    mux: bool,
    read: Option<nat>,
    written: bool,
    partly: nat,                  // bytes out before a failing write
    copied: Option<(nat, nat)>)

  /** A read fills at most the detection buffer, and a write sends at most what was read. */
  ghost predicate Possible(w: InboundWorld) {
    w.read.Some? ==> w.read.value <= PROTOCOL_DETECT && w.partly <= w.read.value
  }

  /** The upstream resolves and connects, the handshake gives a peer, and the policy lets it reach `me`. */
  ghost predicate LetIn(rules: Rules, me: SpiffeId, target: UpstreamTarget, discovery: bool, w: InboundWorld) {
    && ResolveUpstream(target, discovery, w.lookup).Some? && w.tls.Some? && w.connected
    && Verdict(rules, w.tls.value, me) == Allow
  }

  ghost predicate AdmitsTls(rules: Rules, me: SpiffeId, w: InboundWorld) {
    w.tls.Some? && Verdict(rules, w.tls.value, me) == Allow
  }

  /** The inbound call up to the policy check; `ok` means that it goes on. */
  method Authorise(policy: PolicyEngine, me: SpiffeId, target: UpstreamTarget, discovery: bool, w: InboundWorld)
    returns (ok: bool, ghost path: seq<Answer>)
    requires policy.Valid()
    ensures ok <==> LetIn(policy.Contents(), me, target, discovery, w)
    ensures var h := Walk(Started(Inbound), path, AdmitsTls(policy.Contents(), me, w));
            if ok then h == Some(Handler(Inbound, if w.mux then Tunnelling else Detecting, w.tls, true, 0))
            else h.Some? && h.value.pc == Settling(Failed, 0) && h.value.sent == 0
  {
    ghost var admits := AdmitsTls(policy.Contents(), me, w);
    ghost var h := Started(Inbound);
    var addr := ResolveUpstream(target, discovery, w.lookup);
    path := [Resolved(addr.Some?)];
    WalkOne(h, Resolved(addr.Some?), admits);
    if addr.None? {
      return false, path;
    }
    WalkMore(h, path, Joined(w.tls, w.connected), admits);
    path := path + [Joined(w.tls, w.connected)];
    if w.tls.None? || !w.connected {
      return false, path;
    }
    var decision := policy.Evaluate(w.tls.value, me);
    WalkMore(h, path, Decided(w.mux), admits);
    path := path + [Decided(w.mux)];
    ok := decision.Allow?;
  }

  /** The detected prefix goes to the upstream, whole unless the write fails. */
  ghost function Forwarded(w: InboundWorld): nat {
    if w.read.None? || w.read.value == 0 then 0
    else if w.written then w.read.value
    else w.partly
  }

  /** The inbound call behind the policy check, without mux: read, forward the prefix, relay. */
  method ForwardAndRelay(m: Metrics, w: InboundWorld) returns (how: Settlement, sent: nat, ghost tail: seq<Answer>)
    requires Possible(w)
    modifies m
    ensures m.View() == ChargedAll(old(m.View()), Ops(how))
    ensures how == if w.read.Some? && w.read.value > 0 && w.written then RelayOutcome(w.copied) else Failed
    ensures sent == Forwarded(w)
    ensures var h := Walk(Handler(Inbound, Detecting, w.tls, true, 0), tail, true);
            h.Some? && h.value.pc == Settling(how, 0) && h.value.sent == sent
  {
    ghost var h := Handler(Inbound, Detecting, w.tls, true, 0);
    sent := 0;
    tail := [Read(w.read)];
    WalkOne(h, Read(w.read), true);
    if w.read.None? || w.read.value == 0 {
      m.RecordConnectionFailed();
      return Failed, 0, tail;
    }
    sent := if w.written then w.read.value else w.partly;
    WalkMore(h, tail, Wrote(w.written, sent), true);
    tail := tail + [Wrote(w.written, sent)];
    if !w.written {
      m.RecordConnectionFailed();
      return Failed, sent, tail;
    }
    WalkMore(h, tail, CopiedAnswer(w.copied), true);
    tail := tail + [CopiedAnswer(w.copied)];
    var _, relayed := m.RecordRelayResult(w.copied);
    how := relayed;
  }

  /** `handle_connection` of the inbound proxy.  Every exit settles once; a connection becomes a tunnel or
      forwards bytes only if it is let in; and the call is a path of the step-by-step handler. */
  method HandleInbound(m: Metrics, policy: PolicyEngine, me: SpiffeId,
                       target: UpstreamTarget, discovery: bool, w: InboundWorld)
    returns (how: Settlement, sent: nat, ghost path: seq<Answer>)
    requires policy.Valid() && Possible(w)
    modifies m
    ensures m.View() == AfterCall(old(m.View()), how)
    ensures how.TunnelClosed? <==> LetIn(policy.Contents(), me, target, discovery, w) && w.mux
    ensures how.Relayed? <==> LetIn(policy.Contents(), me, target, discovery, w) && !w.mux &&
                              w.read.Some? && w.read.value > 0 && w.written && w.copied.Some?
    ensures how.Relayed? ==> w.copied == Some((how.up, how.down)) && sent == w.read.value
    ensures sent == if LetIn(policy.Contents(), me, target, discovery, w) && !w.mux then Forwarded(w) else 0
    ensures LeadsTo(Inbound, path, AdmitsTls(policy.Contents(), me, w), how, sent)
  {
    ghost var admits := AdmitsTls(policy.Contents(), me, w);
    m.RecordConnectionStart();
    var ok;
    ok, path := Authorise(policy, me, target, discovery, w);
    if !ok {
      m.RecordConnectionFailed();
      return Failed, 0, path;
    }
    if w.mux {
      WalkMore(Started(Inbound), path, Closed, admits);
      m.RecordTunnelClosed();
      return TunnelClosed, 0, path + [Closed];
    }
    ghost var tail;
    how, sent, tail := ForwardAndRelay(m, w);
    WalkOn(Started(Inbound), path, tail, admits);
    path := path + tail;
  }

  // --------------------------------------------------------------- outbound

  /** What the world answers during an outbound call. */
  datatype OutboundWorld = OutboundWorld(
    lookup: Option<seq<Addr>>,
    opens: seq<bool>,
    meanwhile: seq<Option<SpiffeId>>,
    handshake: Out.Handshake,
    firstOpens: bool,
    copied: Option<(nat, nat)>)

  /** The tunnels an outbound call may touch. */
  ghost function Touched(pool: MuxPool, addr: Option<Addr>): set<Tunnel>
    reads pool
  {
    if addr.Some? then Out.Tunnels(pool, addr.value) else {}
  }

  /** The relay over the route found. */
  method RelayOver(m: Metrics, route: Out.Route, copied: Option<(nat, nat)>) returns (how: Settlement)
    modifies m
    ensures m.View() == ChargedAll(old(m.View()), Ops(how))
    ensures how == if route.MuxStream? || route.Legacy? then RelayOutcome(copied) else Failed
  {
    if route.MuxStream? || route.Legacy? {
      var _, relayed := m.RecordRelayResult(copied);
      how := relayed;
    } else {
      m.RecordConnectionFailed();
      how := Failed;
    }
  }

  /** The relay, with the stream of the route held during it and dropped behind it: its slot comes back, and
      no other tunnel is touched. */
  method RelayAndDrop(m: Metrics, route: Out.Route, copied: Option<(nat, nat)>, ghost tunnels: set<Tunnel>)
    returns (how: Settlement)
    requires route.MuxStream? ==> route.tunnel.live > 0 && route.tunnel in tunnels
    modifies m, tunnels
    ensures m.View() == ChargedAll(old(m.View()), Ops(how))
    ensures how == if route.MuxStream? || route.Legacy? then RelayOutcome(copied) else Failed
    ensures forall t | t in tunnels :: t.live == old(t.live) - if route == Out.MuxStream(t) then 1 else 0
  {
    how := RelayOver(m, route, copied);
    if route.MuxStream? {
      route.tunnel.Release();
    }
  }

  /** Why the call took this route: the attempts over the pool or the handshake say so. */
  ghost predicate RouteCaused(tunnels: set<Tunnel>, rules: Rules, me: SpiffeId, muxEnabled: bool,
                              w: OutboundWorld, route: Out.Route, evicted: nat, shaken: bool)
    requires |w.opens| == Routing.ATTEMPTS
  {
    && (!shaken ==> muxEnabled && Out.Attempted(tunnels, rules, me, route, w.opens, evicted))
    && (shaken ==> Out.Established(rules, me, route, w.handshake, w.firstOpens))
  }

  /** The part of the router's promise that a relay needs. */
  method FindRoute(pool: MuxPool, policy: PolicyEngine, me: SpiffeId, muxEnabled: bool, addr: Addr, w: OutboundWorld)
    returns (route: Out.Route, evicted: nat, shaken: bool)
    requires pool.Valid() && policy.Valid() && |w.opens| == |w.meanwhile| == Routing.ATTEMPTS
    modifies pool, Out.Tunnels(pool, addr)
    ensures pool.Valid() && Out.OthersKept(pool, addr)
    ensures RouteCaused(Out.Tunnels(pool, addr), policy.Contents(), me, muxEnabled, w, route, evicted, shaken)
    ensures route.MuxStream? ==>
              route.tunnel in Out.Tunnels(pool, addr) && Out.Allows(policy.Contents(), me, route.tunnel.peer)
    ensures Out.SlotsKept(old(Out.Tunnels(pool, addr)), route) && Out.JoinedEmpty(pool, addr, route)
  {
    var arrived;
    route, evicted, arrived, shaken :=
      Out.RouteTo(pool, policy, me, addr, muxEnabled, w.opens, w.meanwhile, w.handshake, w.firstOpens);
  }

  /** An outbound call with its upstream resolved: when it is over every stream slot is back. */
  method RouteAndRelay(m: Metrics, pool: MuxPool, policy: PolicyEngine, me: SpiffeId, muxEnabled: bool,
                       addr: Addr, w: OutboundWorld)
    returns (how: Settlement, route: Out.Route, evicted: nat, shaken: bool)
    requires pool.Valid() && policy.Valid() && |w.opens| == |w.meanwhile| == Routing.ATTEMPTS
    modifies m, pool, Out.Tunnels(pool, addr)
    ensures pool.Valid() && m.View() == ChargedAll(old(m.View()), Ops(how))
    ensures how == if route.MuxStream? || route.Legacy? then RelayOutcome(w.copied) else Failed
    ensures RouteCaused(Out.Tunnels(pool, addr), policy.Contents(), me, muxEnabled, w, route, evicted, shaken)
    ensures route.MuxStream? ==>
              route.tunnel in Out.Tunnels(pool, addr) && Out.Allows(policy.Contents(), me, route.tunnel.peer)
    ensures Out.SlotsKept(old(Out.Tunnels(pool, addr)), Out.Failed)
    ensures Out.JoinedEmpty(pool, addr, Out.Failed) && Out.OthersKept(pool, addr)
  {
    route, evicted, shaken := FindRoute(pool, policy, me, muxEnabled, addr, w);
    how := RelayAndDrop(m, route, w.copied, old(Out.Tunnels(pool, addr)) + Out.Tunnels(pool, addr));
  }

  /** The answers an outbound call goes through. */
  ghost function OutboundPath(resolved: bool, routed: bool, copied: Option<(nat, nat)>): seq<Answer> {
    if !resolved then [Resolved(false)]
    else if !routed then [Resolved(true)] + [Routed(false)]
    else [Resolved(true)] + [Routed(true)] + [CopiedAnswer(copied)]
  }

  lemma OutboundPathLeads(resolved: bool, routed: bool, copied: Option<(nat, nat)>)
    ensures LeadsTo(Outbound, OutboundPath(resolved, routed, copied), false,
                    if resolved && routed then RelayOutcome(copied) else Failed, 0)
  {
    var h := Started(Outbound);
    WalkOne(h, Resolved(resolved), false);
    WalkMore(h, [Resolved(true)], Routed(routed), false);
    WalkMore(h, [Resolved(true)] + [Routed(true)], CopiedAnswer(copied), false);
  }

  /** `handle_connection` of the outbound proxy.  Every exit settles once; only a routed connection is
      relayed, and what carried it was allowed; and when the call is over every stream slot is back. */
  method HandleOutbound(m: Metrics, pool: MuxPool, policy: PolicyEngine, me: SpiffeId, muxEnabled: bool,
                        target: UpstreamTarget, discovery: bool, w: OutboundWorld)
    returns (how: Settlement, route: Out.Route, upstream: Option<Addr>, evicted: nat, shaken: bool, ghost path: seq<Answer>)
    requires pool.Valid() && policy.Valid() && |w.opens| == |w.meanwhile| == Routing.ATTEMPTS
    modifies m, pool, Touched(pool, ResolveUpstream(target, discovery, w.lookup))
    ensures pool.Valid() && m.View() == AfterCall(old(m.View()), how)
    ensures how == if route.MuxStream? || route.Legacy? then RelayOutcome(w.copied) else Failed
    ensures upstream == ResolveUpstream(target, discovery, w.lookup)
    ensures upstream.None? <==> target.Host? && (!discovery || w.lookup == None || w.lookup == Some([]))
    ensures upstream.None? ==> route == Out.Failed
    ensures upstream.Some? ==>
              RouteCaused(Touched(pool, upstream), policy.Contents(), me, muxEnabled, w, route, evicted, shaken)
    ensures route.MuxStream? ==>
              route.tunnel in Out.Tunnels(pool, upstream.value) && Out.Allows(policy.Contents(), me, route.tunnel.peer)
    ensures route.Legacy? ==> Out.Allows(policy.Contents(), me, route.peer)
    ensures Out.SlotsKept(old(Touched(pool, upstream)), Out.Failed)
    ensures upstream.Some? ==> Out.JoinedEmpty(pool, upstream.value, Out.Failed) && Out.OthersKept(pool, upstream.value)
    ensures LeadsTo(Outbound, path, false, how, 0)
  {
    m.RecordConnectionStart();
    upstream := ResolveUpstream(target, discovery, w.lookup);
    if upstream.Some? {
      how, route, evicted, shaken := RouteAndRelay(m, pool, policy, me, muxEnabled, upstream.value, w);
    } else {
      m.RecordConnectionFailed();
      how, route, evicted, shaken := Failed, Out.Failed, 0, false;
    }
    path := OutboundPath(upstream.Some?, route.MuxStream? || route.Legacy?, w.copied);
    OutboundPathLeads(upstream.Some?, route.MuxStream? || route.Legacy?, w.copied);
  }

  /** `relay_stream_to_upstream`: one stream of an inbound tunnel. */
  method RelayStreamToUpstream(m: Metrics, tunnel: HandlerId, connected: bool, copied: Option<(nat, nat)>)
    returns (how: Settlement, ghost path: seq<Answer>)
    modifies m
    ensures m.View() == AfterCall(old(m.View()), how)
    ensures how == if connected then RelayOutcome(copied) else Failed
    ensures LeadsTo(Stream(tunnel), path, false, how, 0)
  {
    ghost var h := Started(Stream(tunnel));
    m.RecordConnectionStart();
    WalkOne(h, Connected(connected), false);
    path := [Connected(connected)];
    if !connected {
      m.RecordConnectionFailed();
      return Failed, path;
    }
    WalkMore(h, path, CopiedAnswer(copied), false);
    path := path + [CopiedAnswer(copied)];
    var _, relayed := m.RecordRelayResult(copied);
    how := relayed;
  }
}

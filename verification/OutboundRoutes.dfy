/** One routing call as the outbound proxy runs it: the four-attempt loop over the pool, the stream opens
    and the handshake.  The environment's answers are parameters, and so are the tunnels that other calls
    register while this one waits for the creation lock. */
module OutboundRoutes {
  import opened ByteStrings
  import opened SpiffeIds
  import opened Policies
  import opened MuxPools
  import Routing

  datatype Route = MuxStream(tunnel: Tunnel) | Legacy(peer: SpiffeId) | Denied | Failed

  /** What a handshake yields: the peer's identity and whether ALPN chose mux. */
  datatype Handshake = Refused | Shaken(peer: SpiffeId, mux: bool)

  ghost predicate Allows(rules: Rules, localId: SpiffeId, peer: SpiffeId) {
    Verdict(rules, localId, peer) == Allow
  }

  ghost function Tunnels(pool: MuxPool, addr: Addr): (ts: set<Tunnel>)
    reads pool
  {
    set t | t in pool.Registered(addr)
  }

  /** The pool of every other address is as it was. */
  twostate predicate OthersKept(pool: MuxPool, addr: Addr)
    reads pool
  {
    forall a | a != addr :: pool.Registered(a) == old(pool.Registered(a))
  }

  /** No pooled tunnel shares the id of `tunnel`, which may itself have left the pool. */
  ghost predicate OwnId(pool: MuxPool, addr: Addr, tunnel: Tunnel)
    reads pool
  {
    forall t | t in Tunnels(pool, addr) && t.id == tunnel.id :: t == tunnel
  }

  lemma PooledOwnId(pool: MuxPool, addr: Addr, tunnel: Tunnel)
    requires pool.Valid() && tunnel in Tunnels(pool, addr)
    ensures OwnId(pool, addr, tunnel) && tunnel.id in pool.Ids(addr)
  {
    var ts := pool.Registered(addr);
    var i :| 0 <= i < |ts| && ts[i] == tunnel;
    assert pool.Ids(addr)[i] == tunnel.id;
    forall t | t in Tunnels(pool, addr) && t.id == tunnel.id
      ensures t == tunnel
    {
      var j :| 0 <= j < |ts| && ts[j] == t;
      assert pool.Ids(addr)[i] == pool.Ids(addr)[j];
    }
  }

  /** Evicting a tunnel takes away that one, if it is still pooled, and no other. */
  method Discard(pool: MuxPool, addr: Addr, tunnel: Tunnel)
    requires pool.Valid() && OwnId(pool, addr, tunnel)
    modifies pool
    ensures pool.Valid() && OthersKept(pool, addr)
    ensures Tunnels(pool, addr) == old(Tunnels(pool, addr)) - {tunnel}
    ensures |pool.Registered(addr)| == |old(pool.Registered(addr))| - if tunnel in old(Tunnels(pool, addr)) then 1 else 0
  {
    DiscardCount(pool, addr, tunnel);
    pool.Evict(addr, tunnel);
    assert |pool.Ids(addr)| == |pool.Registered(addr)|;
  }

  lemma DiscardCount(pool: MuxPool, addr: Addr, tunnel: Tunnel)
    requires pool.Valid() && OwnId(pool, addr, tunnel)
    ensures |Without(pool.Ids(addr), tunnel.id)| ==
            |pool.Registered(addr)| - if tunnel in Tunnels(pool, addr) then 1 else 0
  {
    var ids := pool.Ids(addr);
    WithoutDistinct(ids, tunnel.id);
    if tunnel in Tunnels(pool, addr) {
      PooledOwnId(pool, addr, tunnel);
    }
  }

  /** `try_tunnel_stream`: a slot is kept exactly by a stream that opened, and a tunnel is evicted exactly
      when it was allowed and would not open one.  Another call may have evicted it before. */
  method TryTunnelStream(pool: MuxPool, policy: PolicyEngine, localId: SpiffeId, addr: Addr, tunnel: Tunnel, opens: bool)
    returns (r: Option<Route>)
    requires pool.Valid() && policy.Valid() && OwnId(pool, addr, tunnel)
    modifies pool, tunnel
    ensures pool.Valid() && OthersKept(pool, addr)
    ensures r == if !Allows(policy.Contents(), localId, tunnel.peer) then Some(Denied)
                 else if opens then Some(MuxStream(tunnel)) else None
    ensures tunnel.live == old(tunnel.live) + if r.Some? && r.value.MuxStream? then 1 else 0
    ensures Tunnels(pool, addr) == old(Tunnels(pool, addr)) - if r.None? then {tunnel} else {}
    ensures |pool.Registered(addr)| ==
            |old(pool.Registered(addr))| - if r.None? && tunnel in old(Tunnels(pool, addr)) then 1 else 0
  {
    var decision := policy.Evaluate(localId, tunnel.peer);
    if decision.Deny? {
      return Some(Denied);
    }
    tunnel.Reserve();
    if opens {
      return Some(MuxStream(tunnel));
    }
    tunnel.Release();
    Discard(pool, addr, tunnel);
    r := None;
  }

  /** Each outcome of a handshake has its exact cause. */
  ghost predicate Established(rules: Rules, localId: SpiffeId, r: Route, handshake: Handshake, opens: bool) {
    var allowed := handshake.Shaken? && Allows(rules, localId, handshake.peer);
    && (r == Denied <==> handshake.Shaken? && !allowed)
    && (r.Legacy? <==> allowed && !handshake.mux)
    && (r.MuxStream? <==> allowed && handshake.mux && opens)
    && (r == Failed <==> handshake.Refused? || (allowed && handshake.mux && !opens))
    && (r.Legacy? ==> r.peer == handshake.peer)
    && (r.MuxStream? ==> r.tunnel.peer == handshake.peer)
  }

  /** `establish`: nothing but an allowed mux connection that carries its first stream stays in the pool,
      and that stream holds the new tunnel's only slot. */
  method Establish(pool: MuxPool, policy: PolicyEngine, localId: SpiffeId, addr: Addr, handshake: Handshake, opens: bool)
    returns (r: Route)
    requires pool.Valid() && policy.Valid()
    modifies pool
    ensures pool.Valid() && OthersKept(pool, addr)
    ensures Established(policy.Contents(), localId, r, handshake, opens)
    ensures r.MuxStream? ==> fresh(r.tunnel) && r.tunnel.live == 1
    ensures Tunnels(pool, addr) == old(Tunnels(pool, addr)) + if r.MuxStream? then {r.tunnel} else {}
    ensures |pool.Registered(addr)| == |old(pool.Registered(addr))| + if r.MuxStream? then 1 else 0
  {
    if handshake.Refused? {
      return Failed;
    }
    var decision := policy.Evaluate(localId, handshake.peer);
    if decision.Deny? {
      return Denied;
    }
    if !handshake.mux {
      return Legacy(handshake.peer);
    }
    var tunnel := RegisterAndOpen(pool, addr, handshake.peer, opens);
    r := if opens then MuxStream(tunnel) else Failed;
  }

  /** A tunnel whose first stream does not open leaves the pool as it found it. */
  method RegisterAndOpen(pool: MuxPool, addr: Addr, peer: SpiffeId, opens: bool) returns (tunnel: Tunnel)
    requires pool.Valid()
    modifies pool
    ensures pool.Valid() && OthersKept(pool, addr)
    ensures fresh(tunnel) && tunnel.peer == peer && tunnel.live == if opens then 1 else 0
    ensures Tunnels(pool, addr) == old(Tunnels(pool, addr)) + if opens then {tunnel} else {}
    ensures |pool.Registered(addr)| == |old(pool.Registered(addr))| + if opens then 1 else 0
  {
    ghost var before := Tunnels(pool, addr);
    tunnel := pool.Register(addr, peer);
    assert Tunnels(pool, addr) == before + {tunnel};
    tunnel.Reserve();
    if !opens {
      tunnel.Release();
      PooledOwnId(pool, addr, tunnel);
      Discard(pool, addr, tunnel);
    }
  }

  /** The tunnels carry the streams they carried, but for one more on the routed one. */
  twostate predicate SlotsKept(tunnels: set<Tunnel>, new r: Route)
    reads tunnels
  {
    forall t | t in tunnels :: t.live == old(t.live) + if r == MuxStream(t) then 1 else 0
  }

  /** What one attempt of `route` over the pool comes to. */
  datatype Turn = Again | Grow | Done(route: Route)

  /** Waiting for the creation lock: meanwhile another call may register a tunnel, if there is room. */
  method AwaitLock(pool: MuxPool, addr: Addr, meanwhile: Option<SpiffeId>) returns (arrived: Option<Tunnel>)
    requires pool.Valid()
    modifies pool
    ensures pool.Valid() && OthersKept(pool, addr)
    ensures arrived.Some? ==> fresh(arrived.value) && arrived.value.live == 0 &&
                              |pool.Registered(addr)| <= MAX_TUNNELS_PER_PEER
    ensures Tunnels(pool, addr) == old(Tunnels(pool, addr)) + if arrived.Some? then {arrived.value} else {}
    ensures |pool.Registered(addr)| == |old(pool.Registered(addr))| + if arrived.Some? then 1 else 0
  {
    arrived := None;
    var lock := pool.CreationLock(addr);
    var room := pool.CanGrow(addr);
    if meanwhile.Some? && room {
      ghost var before := Tunnels(pool, addr);
      var tunnel := pool.Register(addr, meanwhile.value);
      assert Tunnels(pool, addr) == before + {tunnel};
      arrived := Some(tunnel);
    }
  }

  /** Every tunnel is at the soft cap and there is room for one more. */
  ghost predicate Crowded(pool: MuxPool, addr: Addr)
    reads pool, Tunnels(pool, addr)
  {
    && |pool.Registered(addr)| < MAX_TUNNELS_PER_PEER
    && forall t | t in Tunnels(pool, addr) :: t.live >= STREAMS_PER_TUNNEL
  }

  /** The recheck under the lock, and the scan at the hard cap.  Nothing is picked exactly when every
      tunnel is at the soft cap and there is room for one more. */
  method PickUnderLock(pool: MuxPool, addr: Addr) returns (pick: Option<Tunnel>)
    ensures pick.Some? ==> pick.value in Tunnels(pool, addr) &&
                           forall t | t in Tunnels(pool, addr) :: pick.value.live <= t.live
    ensures pick.None? <==> Crowded(pool, addr)
  {
    pick := pool.PickUnderCap(addr);
    if pick.None? {
      var grow := pool.CanGrow(addr);
      if !grow {
        pick := pool.PickAny(addr);
      }
    }
  }

  /** The scans of one attempt, and what may happen to the pool between them.  A tunnel that another call
      registers while this one waits is the one the recheck finds, so the two calls share its handshake. */
  method PickForAttempt(pool: MuxPool, addr: Addr, meanwhile: Option<SpiffeId>)
    returns (pick: Option<Tunnel>, arrived: Option<Tunnel>)
    requires pool.Valid()
    modifies pool
    ensures pool.Valid() && OthersKept(pool, addr)
    ensures arrived.Some? ==> fresh(arrived.value) && arrived.value.live == 0 && pick == arrived &&
                              |pool.Registered(addr)| <= MAX_TUNNELS_PER_PEER
    ensures Tunnels(pool, addr) == old(Tunnels(pool, addr)) + if arrived.Some? then {arrived.value} else {}
    ensures |pool.Registered(addr)| == |old(pool.Registered(addr))| + if arrived.Some? then 1 else 0
    ensures arrived.Some? ==> old(Crowded(pool, addr))
    ensures pick.Some? ==> pick.value in Tunnels(pool, addr) &&
                           forall t | t in Tunnels(pool, addr) :: pick.value.live <= t.live
    ensures pick.None? <==> Crowded(pool, addr)
  {
    arrived := None;
    pick := pool.PickUnderCap(addr);
    if pick.None? {
      arrived := AwaitLock(pool, addr, meanwhile);
      pick := PickUnderLock(pool, addr);
    }
  }

  /** Tunnels that joined the pool during the call carry nothing but its own stream. */
  twostate predicate JoinedEmpty(pool: MuxPool, addr: Addr, new r: Route)
    reads pool, Tunnels(pool, addr)
  {
    forall t | t in Tunnels(pool, addr) ::
      t in old(Tunnels(pool, addr)) || (fresh(t) && t.live == if r == MuxStream(t) then 1 else 0)
  }

  function RouteOf(turn: Turn): Route {
    if turn.Done? then turn.route else Failed
  }

  /** What an attempt may end a call with: a stream that opened on a pooled tunnel whose peer is allowed, or
      a denial of a pooled tunnel's peer. */
  ghost predicate Decided(tunnels: set<Tunnel>, rules: Rules, localId: SpiffeId, route: Route, opens: bool) {
    match route
    case MuxStream(tunnel) => opens && tunnel in tunnels && Allows(rules, localId, tunnel.peer)
    case Denied => exists t | t in tunnels :: !Allows(rules, localId, t.peer)
    case _ => false
  }

  /** One attempt: it repeats only behind an eviction, of a tunnel that would not open a stream, and asks for
      a handshake exactly when the pool is crowded and stays so. */
  method Attempt(pool: MuxPool, policy: PolicyEngine, localId: SpiffeId, addr: Addr,
                 opens: bool, meanwhile: Option<SpiffeId>)
    returns (turn: Turn, arrived: bool)
    requires pool.Valid() && policy.Valid()
    modifies pool, Tunnels(pool, addr)
    ensures pool.Valid() && OthersKept(pool, addr)
    ensures JoinedEmpty(pool, addr, RouteOf(turn)) && SlotsKept(old(Tunnels(pool, addr)), RouteOf(turn))
    ensures |pool.Registered(addr)| ==
            |old(pool.Registered(addr))| + (if arrived then 1 else 0) - (if turn == Again then 1 else 0)
    ensures arrived ==> |pool.Registered(addr)| <= MAX_TUNNELS_PER_PEER
    ensures turn == Grow <==> !arrived && old(Crowded(pool, addr))
    ensures turn == Grow ==> Crowded(pool, addr)
    ensures turn == Again ==> !opens
    ensures turn.Done? ==> Decided(Tunnels(pool, addr), policy.Contents(), localId, turn.route, opens)
    ensures turn.Done? && turn.route.MuxStream? ==>
              forall t | t in old(Tunnels(pool, addr)) :: turn.route.tunnel.live - 1 <= old(t.live)
  {
    var pick, joined := PickForAttempt(pool, addr, meanwhile);
    arrived := joined.Some?;
    if pick.None? {
      return Grow, arrived;
    }
    PooledOwnId(pool, addr, pick.value);
    var r := TryTunnelStream(pool, policy, localId, addr, pick.value, opens);
    turn := if r.Some? then Done(r.value) else Again;
  }

  /** The attempts of one call: they fail exactly when all four met a dead tunnel. */
  method Attempts(pool: MuxPool, policy: PolicyEngine, localId: SpiffeId, addr: Addr,
                  opens: seq<bool>, meanwhile: seq<Option<SpiffeId>>)
    returns (turn: Turn, evicted: nat, arrived: nat)
    requires pool.Valid() && policy.Valid() && |opens| == |meanwhile| == Routing.ATTEMPTS
    modifies pool, Tunnels(pool, addr)
    ensures pool.Valid() && OthersKept(pool, addr) && turn != Again && evicted <= Routing.ATTEMPTS
    ensures JoinedEmpty(pool, addr, RouteOf(turn)) && SlotsKept(old(Tunnels(pool, addr)), RouteOf(turn))
    ensures |pool.Registered(addr)| == |old(pool.Registered(addr))| + arrived - evicted
    ensures arrived > 0 ==> |pool.Registered(addr)| <= MAX_TUNNELS_PER_PEER
    ensures turn == Grow ==> Crowded(pool, addr)
    ensures forall k | 0 <= k < evicted :: !opens[k]
    ensures turn == Done(Failed) <==> evicted == Routing.ATTEMPTS
    ensures turn.Done? && turn.route != Failed ==>
              Decided(Tunnels(pool, addr), policy.Contents(), localId, turn.route, opens[evicted])
  {
    evicted, arrived := 0, 0;
    while evicted < Routing.ATTEMPTS
      invariant pool.Valid() && OthersKept(pool, addr) && evicted <= Routing.ATTEMPTS
      invariant |pool.Registered(addr)| == |old(pool.Registered(addr))| + arrived - evicted
      invariant arrived > 0 ==> |pool.Registered(addr)| <= MAX_TUNNELS_PER_PEER
      invariant JoinedEmpty(pool, addr, Failed) && SlotsKept(old(Tunnels(pool, addr)), Failed)
      invariant forall k | 0 <= k < evicted :: !opens[k]
    {
      var joined;
      turn, joined := Attempt(pool, policy, localId, addr, opens[evicted], meanwhile[evicted]);
      arrived := arrived + if joined then 1 else 0;
      if turn != Again {
        return;
      }
      evicted := evicted + 1;
    }
    turn := Done(Failed);
  }

  /** How the attempts of a call end it: they fail exactly when all four met a dead tunnel, and otherwise
      the attempt behind those that did decides. */
  ghost predicate Attempted(tunnels: set<Tunnel>, rules: Rules, localId: SpiffeId, r: Route,
                            opens: seq<bool>, evicted: nat)
    requires |opens| == Routing.ATTEMPTS
  {
    && evicted <= Routing.ATTEMPTS && (r == Failed <==> evicted == Routing.ATTEMPTS)
    && (r != Failed ==> Decided(tunnels, rules, localId, r, opens[evicted]))
  }

  /** `route`: the attempts, and the handshake if one asks for it.  `evicted` counts the dead tunnels met,
      `arrived` those that other calls registered meanwhile, `shaken` says whether this call made a handshake.
      At most one handshake per call, and with mux only for want of capacity; a call fails without one
      exactly when all four attempts met a dead tunnel; the pool loses the dead tunnels, gains from this
      call at most its stream's own, and never grows past sixteen; every other slot is as it was; and what
      carries the connection was allowed. */
  method RouteTo(pool: MuxPool, policy: PolicyEngine, localId: SpiffeId, addr: Addr, muxEnabled: bool,
                 opens: seq<bool>, meanwhile: seq<Option<SpiffeId>>, handshake: Handshake, firstOpens: bool)
    returns (r: Route, evicted: nat, arrived: nat, shaken: bool)
    requires pool.Valid() && policy.Valid() && |opens| == |meanwhile| == Routing.ATTEMPTS
    modifies pool, Tunnels(pool, addr)
    ensures pool.Valid() && OthersKept(pool, addr) && evicted <= Routing.ATTEMPTS
    ensures JoinedEmpty(pool, addr, r) && SlotsKept(old(Tunnels(pool, addr)), r)
    ensures |pool.Registered(addr)| ==
            |old(pool.Registered(addr))| + arrived - evicted + if shaken && r.MuxStream? then 1 else 0
    ensures muxEnabled && |old(pool.Registered(addr))| <= MAX_TUNNELS_PER_PEER ==>
              |pool.Registered(addr)| <= MAX_TUNNELS_PER_PEER
    ensures !shaken ==> muxEnabled && Attempted(Tunnels(pool, addr), policy.Contents(), localId, r, opens, evicted)
    ensures shaken ==> Established(policy.Contents(), localId, r, handshake, firstOpens)
    ensures forall k | 0 <= k < evicted :: !opens[k]
    ensures muxEnabled && shaken ==>
              forall t | t in Tunnels(pool, addr) && r != MuxStream(t) :: t.live >= STREAMS_PER_TUNNEL
    ensures r.MuxStream? ==> r.tunnel in Tunnels(pool, addr) && Allows(policy.Contents(), localId, r.tunnel.peer)
    ensures r.Legacy? ==> shaken && Allows(policy.Contents(), localId, r.peer)
  {
    evicted, arrived, shaken := 0, 0, true;
    if muxEnabled {
      var turn;
      turn, evicted, arrived := Attempts(pool, policy, localId, addr, opens, meanwhile);
      if turn.Done? {
        return turn.route, evicted, arrived, false;
      }
    }
    r := Establish(pool, policy, localId, addr, handshake, firstOpens);
  }
}

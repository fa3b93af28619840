/** The client-side pool of multiplexed tunnels. */
module MuxPools {
  import opened ByteStrings
  import opened SpiffeIds

  /** A socket address. */
  datatype Addr = Addr(ip: nat, port: nat)

  type TunnelId = nat

  /** From this load on a tunnel is passed over while the pool can still grow. */
  const STREAMS_PER_TUNNEL: nat := 200
  /** The pool of a peer never grows beyond this. */
  const MAX_TUNNELS_PER_PEER: nat := 16

  // ------------------------------------------------------------------ picking

  predicate Eligible(load: nat, cap: Option<nat>) {
    cap.None? || load < cap.value
  }

  /** `i` is the first of the least loaded among the eligible entries. */
  ghost predicate IsLeast(loads: seq<nat>, cap: Option<nat>, i: nat) {
    && i < |loads| && Eligible(loads[i], cap)
    && (forall j | 0 <= j < |loads| && Eligible(loads[j], cap) :: loads[i] <= loads[j])
    && (forall j | 0 <= j < i && Eligible(loads[j], cap) :: loads[i] < loads[j])
  }

  /** `filter` and `min_by_key`: among equal keys the first wins. */
  function Least(loads: seq<nat>, cap: Option<nat>): (r: Option<nat>)
    ensures r.Some? ==> IsLeast(loads, cap, r.value)
    ensures r.None? <==> forall i | 0 <= i < |loads| :: !Eligible(loads[i], cap)
  {
    if loads == [] then None
    else
      var n := |loads| - 1;
      var front := loads[..n];
      match Least(front, cap)
      case None =>
        assert forall i | 0 <= i < n :: front[i] == loads[i];
        if Eligible(loads[n], cap) then Some(n) else None
      case Some(i) =>
        assert forall i | 0 <= i < n :: front[i] == loads[i];
        if Eligible(loads[n], cap) && loads[n] < loads[i] then Some(n) else Some(i)
  }

  lemma LeastMore(loads: seq<nat>, load: nat, cap: Option<nat>)
    ensures Least(loads + [load], cap) ==
            match Least(loads, cap)
            case None => if Eligible(load, cap) then Some(|loads|) else None
            case Some(i) => if Eligible(load, cap) && load < loads[i] then Some(|loads|) else Some(i)
  {
    assert (loads + [load])[..|loads|] == loads;
  }

  /** `retain(|t| t.id != id)`. */
  function Without(ids: seq<TunnelId>, id: TunnelId): (r: seq<TunnelId>)
    ensures forall t :: t in r <==> t in ids && t != id
  {
    if ids == [] then []
    else if ids[0] == id then Without(ids[1..], id)
    else [ids[0]] + Without(ids[1..], id)
  }

  ghost predicate Distinct(ids: seq<TunnelId>) {
    forall i, j | 0 <= i < j < |ids| :: ids[i] != ids[j]
  }

  /** Removing an id that occurs at most once drops that entry only. */
  lemma {:induction false} WithoutDistinct(ids: seq<TunnelId>, id: TunnelId)
    requires Distinct(ids)
    ensures Distinct(Without(ids, id))
    ensures |Without(ids, id)| == |ids| - if id in ids then 1 else 0
  {
    if ids != [] {
      WithoutDistinct(ids[1..], id);
      assert ids[0] !in ids[1..];
      if ids[0] == id {
        WithoutAbsent(ids[1..], id);
      } else {
        var rest := Without(ids[1..], id);
        assert forall i | 0 <= i < |rest| :: rest[i] in rest;
      }
    }
  }

  lemma {:induction false} WithoutAbsent(ids: seq<TunnelId>, id: TunnelId)
    requires id !in ids
    ensures Without(ids, id) == ids
  {
    if ids != [] {
      WithoutAbsent(ids[1..], id);
    }
  }

  /** Evictions in any order and number: the last word is the same. */
  lemma {:induction false} WithoutCommutes(ids: seq<TunnelId>, a: TunnelId, b: TunnelId)
    ensures Without(Without(ids, a), b) == Without(Without(ids, b), a)
    ensures Without(Without(ids, a), a) == Without(ids, a)
  {
    WithoutAbsent(Without(ids, a), a);
    if ids != [] {
      WithoutCommutes(ids[1..], a, b);
      if ids[0] != a && ids[0] != b {
        WithoutHead(ids, a, b);
        WithoutHead(ids, b, a);
      }
    }
  }

  lemma WithoutHead(ids: seq<TunnelId>, a: TunnelId, b: TunnelId)
    requires ids != [] && ids[0] != a && ids[0] != b
    ensures Without(Without(ids, a), b) == [ids[0]] + Without(Without(ids[1..], a), b)
  {
  }

  // -------------------------------------------------------------------- class

  /** A registered tunnel; `live` is the shared counter its guards decrement. */
  class Tunnel {
    const id: TunnelId
    const peer: SpiffeId
    var live: nat

    constructor (id: TunnelId, peer: SpiffeId)
      ensures this.id == id && this.peer == peer && live == 0
    {
      this.id, this.peer, live := id, peer, 0;
    }

    /** The reservation at the start of `open_stream`. */
    method Reserve()
      modifies this
      ensures live == old(live) + 1
    {
      live := live + 1;
    }

    /** `LiveGuard::drop`. */
    method Release()
      requires live > 0
      modifies this
      ensures live == old(live) - 1
    {
      live := live - 1;
    }
  }

  class MuxPool {
    var peers: map<Addr, seq<Tunnel>>
    var creating: map<Addr, nat>
    var nextId: TunnelId
    var nextLock: nat

    ghost function Registered(addr: Addr): seq<Tunnel>
      reads this
    {
      if addr in peers then peers[addr] else []
    }

    ghost function Ids(addr: Addr): seq<TunnelId>
      reads this
    {
      IdsOf(Registered(addr))
    }

    ghost function Loads(addr: Addr): seq<nat>
      reads this, Registered(addr)
    {
      LoadsOf(Registered(addr))
    }

    /** Ids are below the next one, and no two tunnels of a peer share one; no two addresses share a lock. */
    ghost predicate Valid()
      reads this
    {
      && (forall a | a in peers :: GoodList(peers[a], nextId))
      && (forall a | a in creating :: creating[a] < nextLock)
      && (forall a, b | a in creating && b in creating && a != b :: creating[a] != creating[b])
    }

    constructor ()
      ensures Valid() && peers == map[] && creating == map[]
    {
      peers, creating, nextId, nextLock := map[], map[], 0, 0;
    }

    /** The scan shared by `pick_under_cap` and `pick_any`. */
    method Pick(addr: Addr, cap: Option<nat>) returns (r: Option<Tunnel>)
      ensures match Least(Loads(addr), cap)
              case None => r.None?
              case Some(i) => r == Some(Registered(addr)[i])
    {
      var ts := if addr in peers then peers[addr] else [];
      var i := LeastLoaded(ts, cap);
      r := if i.Some? then Some(ts[i.value]) else None;
    }

    /** `pick_under_cap`. */
    method PickUnderCap(addr: Addr) returns (r: Option<Tunnel>)
      ensures r.None? <==> forall t | t in Registered(addr) :: t.live >= 200
      ensures r.Some? ==> r.value in Registered(addr) && r.value.live < 200 &&
                          forall t | t in Registered(addr) :: r.value.live <= t.live
    {
      r := Pick(addr, Some(STREAMS_PER_TUNNEL));
      ghost var ts := Registered(addr);
      assert forall i | 0 <= i < |ts| :: Loads(addr)[i] == ts[i].live;
    }

    /** `pick_any`. */
    method PickAny(addr: Addr) returns (r: Option<Tunnel>)
      ensures r.None? <==> Registered(addr) == []
      ensures r.Some? ==> r.value in Registered(addr) && forall t | t in Registered(addr) :: r.value.live <= t.live
    {
      r := Pick(addr, None);
      ghost var ts := Registered(addr);
      assert forall i | 0 <= i < |ts| :: Loads(addr)[i] == ts[i].live;
    }

    /** `can_grow`. */
    method CanGrow(addr: Addr) returns (r: bool)
      ensures r <==> |Registered(addr)| < 16
    {
      var n := if addr in peers then |peers[addr]| else 0;
      r := n < MAX_TUNNELS_PER_PEER;
    }

    /** `evict`: compare-and-remove by id. */
    method Evict(addr: Addr, tunnel: Tunnel)
      requires Valid()
      modifies this
      ensures Valid() && nextId == old(nextId) && nextLock == old(nextLock) && creating == old(creating)
      ensures Ids(addr) == Without(old(Ids(addr)), tunnel.id)
      ensures forall t :: t in Registered(addr) <==> t in old(Registered(addr)) && t.id != tunnel.id
      ensures forall a | a != addr :: Registered(a) == old(Registered(a))
    {
      if addr in peers {
        var kept := Retain(peers[addr], tunnel.id);
        RetainedIsGood(peers[addr], kept, tunnel.id, nextId);
        peers := peers[addr := kept];
      }
    }

    /** `creation_lock`: made on first use and never replaced. */
    method CreationLock(addr: Addr) returns (lock: nat)
      requires Valid()
      modifies this
      ensures Valid() && peers == old(peers) && nextId == old(nextId)
      ensures addr in creating && creating[addr] == lock
      ensures forall a | a in old(creating) :: a in creating && creating[a] == old(creating)[a]
    {
      if addr !in creating {
        creating := creating[addr := nextLock];
        nextLock := nextLock + 1;
      }
      lock := creating[addr];
    }

    /** `register`: the tunnel joins at the end of its peer's list under an id never used before. */
    method Register(addr: Addr, peer: SpiffeId) returns (tunnel: Tunnel)
      requires Valid()
      modifies this
      ensures Valid() && creating == old(creating) && nextLock == old(nextLock)
      ensures fresh(tunnel) && tunnel.id == old(nextId) && tunnel.peer == peer && tunnel.live == 0
      ensures nextId == old(nextId) + 1
      ensures Registered(addr) == old(Registered(addr)) + [tunnel]
      ensures forall a | a != addr :: Registered(a) == old(Registered(a))
    {
      tunnel := new Tunnel(nextId, peer);
      nextId := nextId + 1;
      var before := if addr in peers then peers[addr] else [];
      JoinedIsGood(before, tunnel);
      peers := peers[addr := before + [tunnel]];
    }
  }

  ghost function LoadsOf(ts: seq<Tunnel>): (r: seq<nat>)
    reads ts
    ensures |r| == |ts| && forall i | 0 <= i < |ts| :: r[i] == ts[i].live
  {
    seq(|ts|, i requires 0 <= i < |ts| reads ts => ts[i].live)
  }

  ghost function IdsOf(ts: seq<Tunnel>): (r: seq<TunnelId>)
    ensures |r| == |ts| && forall i | 0 <= i < |ts| :: r[i] == ts[i].id
  {
    seq(|ts|, i requires 0 <= i < |ts| => ts[i].id)
  }

  ghost predicate GoodList(ts: seq<Tunnel>, next: TunnelId) {
    Distinct(IdsOf(ts)) && forall t | t in ts :: t.id < next
  }

  lemma JoinedIsGood(ts: seq<Tunnel>, tunnel: Tunnel)
    requires GoodList(ts, tunnel.id)
    ensures GoodList(ts + [tunnel], tunnel.id + 1)
  {
    assert IdsOf(ts + [tunnel]) == IdsOf(ts) + [tunnel.id];
    assert forall i | 0 <= i < |ts| :: ts[i] in ts;
  }

  lemma RetainedIsGood(ts: seq<Tunnel>, kept: seq<Tunnel>, id: TunnelId, next: TunnelId)
    requires GoodList(ts, next) && IdsOf(kept) == Without(IdsOf(ts), id) && forall t | t in kept :: t in ts
    ensures GoodList(kept, next)
  {
    WithoutDistinct(IdsOf(ts), id);
  }

  method LeastLoaded(ts: seq<Tunnel>, cap: Option<nat>) returns (r: Option<nat>)
    ensures r == Least(LoadsOf(ts), cap)
  {
    r := None;
    ghost var loads := LoadsOf(ts);
    for n := 0 to |ts|
      invariant r == Least(loads[..n], cap)
    {
      assert loads[..n + 1] == loads[..n] + [ts[n].live];
      LeastMore(loads[..n], ts[n].live, cap);
      if Eligible(ts[n].live, cap) && (r.None? || ts[n].live < ts[r.value].live) {
        r := Some(n);
      }
    }
    assert loads[..|ts|] == loads;
  }

  method Retain(ts: seq<Tunnel>, id: TunnelId) returns (kept: seq<Tunnel>)
    ensures IdsOf(kept) == Without(IdsOf(ts), id)
    ensures forall t :: t in kept <==> t in ts && t.id != id
  {
    kept := [];
    assert ts[..|ts|] == ts;
    for n := 0 to |ts|
      invariant IdsOf(kept) == Without(IdsOf(ts[..n]), id)
      invariant forall t :: t in kept <==> t in ts[..n] && t.id != id
    {
      assert IdsOf(ts[..n + 1]) == IdsOf(ts[..n]) + [ts[n].id];
      WithoutSnoc(IdsOf(ts[..n]), ts[n].id, id);
      if ts[n].id != id {
        assert IdsOf(kept + [ts[n]]) == IdsOf(kept) + [ts[n].id];
        kept := kept + [ts[n]];
      }
    }
  }

  lemma {:induction false} WithoutSnoc(ids: seq<TunnelId>, last: TunnelId, id: TunnelId)
    ensures Without(ids + [last], id) == Without(ids, id) + if last == id then [] else [last]
  {
    if ids != [] {
      assert (ids + [last])[1..] == ids[1..] + [last];
      WithoutSnoc(ids[1..], last, id);
    } else {
      assert (ids + [last])[1..] == [];
    }
  }
}

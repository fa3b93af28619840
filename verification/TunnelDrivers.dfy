/** The driver of one client tunnel: a hand-written poll loop that serves stream-open requests one at
    a time and pumps the connection.

    A request that arrives while a poll is running is taken as having arrived before it, and a requester
    that gives up during a poll as having given up before it: the loop looks at each request at most once
    per poll, so it cannot tell the difference.  The bound of the request channel only delays senders. */
module TunnelDrivers {
  import opened ByteStrings

  type Request = nat

  /** `poll_new_outbound`. */
  datatype OpenAnswer = Opened(stream: nat) | OpenError | OpenPending

  /** `poll_next_inbound`. */
  datatype Inbound = Unexpected | Broken | Closed | Idle

  /** What became of a request. */
  datatype Fate = Answered(req: Request, answer: OpenAnswer) | Skipped(req: Request) | Dropped(req: Request)

  function Requests(fates: seq<Fate>): (r: seq<Request>)
    ensures |r| == |fates| && forall i | 0 <= i < |fates| :: r[i] == fates[i].req
  {
    seq(|fates|, i requires 0 <= i < |fates| => fates[i].req)
  }

  // ------------------------------------------------------------ specification

  /** What one poll does to the waiting requests, in arrival order. */
  datatype Served = Served(fates: seq<Fate>, rest: seq<Request>, used: nat)

  /** Requesters that left are skipped; the others take the connection's answers in order, up to the
      first Pending. */
  function Serve(waiting: seq<Request>, left: set<Request>, opens: seq<OpenAnswer>): Served {
    if waiting == [] then Served([], [], 0)
    else if waiting[0] in left then
      var later := Serve(waiting[1..], left, opens);
      later.(fates := [Skipped(waiting[0])] + later.fates)
    else if opens == [] || opens[0].OpenPending? then Served([], waiting, 0)
    else
      var later := Serve(waiting[1..], left, opens[1..]);
      later.(fates := [Answered(waiting[0], opens[0])] + later.fates, used := later.used + 1)
  }

  /** The loop has disposed of `done` and still faces `waiting` with the answers `ahead`. */
  ghost predicate ServedSoFar(all: seq<Request>, left: set<Request>, opens: seq<OpenAnswer>,
                              done: seq<Fate>, waiting: seq<Request>, ahead: seq<OpenAnswer>)
  {
    var goal, s := Serve(all, left, opens), Serve(waiting, left, ahead);
    goal.fates == done + s.fates && goal.rest == s.rest
  }

  lemma ServedMore(all: seq<Request>, left: set<Request>, opens: seq<OpenAnswer>,
                   done: seq<Fate>, waiting: seq<Request>, ahead: seq<OpenAnswer>)
    requires ServedSoFar(all, left, opens, done, waiting, ahead) && waiting != []
    ensures waiting[0] in left ==>
              ServedSoFar(all, left, opens, done + [Skipped(waiting[0])], waiting[1..], ahead)
    ensures waiting[0] !in left && ahead != [] && !ahead[0].OpenPending? ==>
              ServedSoFar(all, left, opens, done + [Answered(waiting[0], ahead[0])], waiting[1..], ahead[1..])
  {
  }

  function Answers(fates: seq<Fate>): seq<OpenAnswer> {
    if fates == [] then []
    else (if fates[0].Answered? then [fates[0].answer] else []) + Answers(fates[1..])
  }

  lemma RequestsAppend(a: seq<Fate>, b: seq<Fate>)
    ensures Requests(a + b) == Requests(a) + Requests(b)
  {
  }

  /** Nothing is lost, duplicated or reordered: fates and rest together are the waiting requests. */
  lemma {:induction false} ServeKeepsOrder(waiting: seq<Request>, left: set<Request>, opens: seq<OpenAnswer>)
    ensures Requests(Serve(waiting, left, opens).fates) + Serve(waiting, left, opens).rest == waiting
    decreases |waiting|
  {
    if waiting != [] && waiting[0] in left {
      ServeKeepsOrder(waiting[1..], left, opens);
      RequestsAppend([Skipped(waiting[0])], Serve(waiting[1..], left, opens).fates);
    } else if waiting != [] && opens != [] && !opens[0].OpenPending? {
      ServeKeepsOrder(waiting[1..], left, opens[1..]);
      RequestsAppend([Answered(waiting[0], opens[0])], Serve(waiting[1..], left, opens[1..]).fates);
    }
  }

  /** Every stream the connection opened went to exactly one requester, in order, and what remains is
      blocked on the connection. */
  lemma {:induction false} ServeUsesAnswersInOrder(waiting: seq<Request>, left: set<Request>, opens: seq<OpenAnswer>)
    ensures var s := Serve(waiting, left, opens);
            && s.used <= |opens| && Answers(s.fates) == opens[..s.used]
            && (s.rest != [] ==> s.rest[0] !in left && (s.used == |opens| || opens[s.used].OpenPending?))
    decreases |waiting|
  {
    var s := Serve(waiting, left, opens);
    if waiting != [] && waiting[0] in left {
      ServeUsesAnswersInOrder(waiting[1..], left, opens);
      assert s.fates[1..] == Serve(waiting[1..], left, opens).fates;
    } else if waiting != [] && opens != [] && !opens[0].OpenPending? {
      ServeUsesAnswersInOrder(waiting[1..], left, opens[1..]);
      var later := Serve(waiting[1..], left, opens[1..]);
      assert s.fates[1..] == later.fates;
      assert opens[..s.used] == [opens[0]] + opens[1..][..later.used];
    }
  }

  /** No stream is opened for a requester that has left, and nobody else is skipped. */
  lemma {:induction false} ServeSkipsExactlyLeavers(waiting: seq<Request>, left: set<Request>, opens: seq<OpenAnswer>)
    ensures forall f | f in Serve(waiting, left, opens).fates ::
              (f.Skipped? <==> f.req in left) && (f.Answered? <==> f.req !in left) && !f.Dropped?
    decreases |waiting|
  {
    if waiting != [] && waiting[0] in left {
      ServeSkipsExactlyLeavers(waiting[1..], left, opens);
    } else if waiting != [] && opens != [] && !opens[0].OpenPending? {
      ServeSkipsExactlyLeavers(waiting[1..], left, opens[1..]);
    }
  }

  /** Whether the engine reports the end of the connection before it has nothing more to say. */
  function Ends(inbound: seq<Inbound>): bool {
    inbound != [] && (inbound[0].Broken? || inbound[0].Closed? || (inbound[0].Unexpected? && Ends(inbound[1..])))
  }

  /** The connection is over at the first report that is not an unexpected stream. */
  ghost predicate EndsAt(inbound: seq<Inbound>, j: nat) {
    && j < |inbound| && (inbound[j] == Broken || inbound[j] == Closed)
    && forall i | 0 <= i < j :: inbound[i] == Unexpected
  }

  /** The end is seen exactly when an error or a close comes with nothing but unexpected streams before. */
  lemma {:induction false} EndsIff(inbound: seq<Inbound>)
    ensures Ends(inbound) <==> exists j: nat :: EndsAt(inbound, j)
  {
    if inbound != [] {
      EndsIff(inbound[1..]);
      if j: nat :| EndsAt(inbound[1..], j) && inbound[0] == Unexpected {
        assert EndsAt(inbound, j + 1);
      }
      if j: nat :| EndsAt(inbound, j) {
        assert j > 0 ==> EndsAt(inbound[1..], j - 1);
      }
      if inbound[0] == Broken || inbound[0] == Closed {
        assert EndsAt(inbound, 0);
      }
    }
  }

  function DropAll(reqs: seq<Request>): (fates: seq<Fate>)
    ensures Requests(fates) == reqs && forall f | f in fates :: f.Dropped?
  {
    var fates := seq(|reqs|, i requires 0 <= i < |reqs| => Dropped(reqs[i]));
    assert Requests(fates) == reqs;
    fates
  }

  // -------------------------------------------------------------------- class

  class TunnelDriver {
    var queue: seq<Request>            // sent and not yet received
    var pendingOpen: Option<Request>   // the stashed request
    var openQueueClosed: bool
    var sendersGone: bool
    var finished: bool
    // history
    ghost var arrived: seq<Request>
    ghost var fates: seq<Fate>
    // wake-ups registered by the last poll
    ghost var wakeOnRequest: bool
    ghost var wakeOnOpen: bool
    ghost var wakeOnInbound: bool

    ghost function Waiting(): seq<Request>
      reads this
    {
      (if pendingOpen.Some? then [pendingOpen.value] else []) + queue
    }

    ghost function Seen(): Log
      reads this
    {
      Log(arrived, fates, Waiting(), finished)
    }

    ghost predicate Valid()
      reads this
    {
      && arrived == Requests(fates) + Waiting()
      && (finished ==> Waiting() == [])
      && (openQueueClosed ==> sendersGone && queue == [])
    }

    constructor ()
      ensures Valid() && !sendersGone && Seen() == AfterAll([])
    {
      queue, pendingOpen, openQueueClosed, sendersGone, finished := [], None, false, false, false;
      arrived, fates := [], [];
      wakeOnRequest, wakeOnOpen, wakeOnInbound := false, false, false;
    }

    /** `open_tx.send`: refused once the driver is gone. */
    method Send(req: Request) returns (ok: bool)
      requires Valid() && !sendersGone
      modifies this
      ensures Valid() && !sendersGone && ok == !old(finished)
      ensures Waiting() == if ok then old(Waiting()) + [req] else old(Waiting())
      ensures Seen() == After(old(Seen()), Sent(req))
    {
      ok := !finished;
      if ok {
        queue := queue + [req];
        arrived := arrived + [req];
        assert Waiting() == old(Waiting()) + [req];
      }
    }

    /** The last sender is dropped. */
    method CloseSenders()
      requires Valid()
      modifies this
      ensures Valid() && sendersGone && Seen() == old(Seen())
    {
      sendersGone := true;
    }

    /** `poll_recv`, unless a request is stashed already or the channel is closed. */
    method Receive()
      requires Valid() && !finished
      modifies this`pendingOpen, this`queue, this`openQueueClosed, this`wakeOnRequest
      ensures Valid() && Waiting() == old(Waiting())
      ensures pendingOpen.None? ==> queue == [] && (wakeOnRequest || openQueueClosed)
    {
      if pendingOpen.None? && !openQueueClosed {
        if queue != [] {
          pendingOpen, queue := Some(queue[0]), queue[1..];
        } else if sendersGone {
          openQueueClosed := true;
        } else {
          wakeOnRequest := true;
        }
      }
      assert Waiting() == old(Waiting());
    }

    /** One turn of the request loop: receive if nothing is stashed, then skip, answer or stash. */
    method ServeNext(left: set<Request>, answer: OpenAnswer) returns (fate: Option<Fate>)
      requires Valid() && !finished
      modifies this
      ensures Valid() && !finished && arrived == old(arrived) && sendersGone == old(sendersGone)
      ensures match fate
              case Some(f) =>
                && old(Waiting()) == [f.req] + Waiting() && fates == old(fates) + [f]
                && f == (if f.req in left then Skipped(f.req) else Answered(f.req, answer))
                && (f.Answered? ==> !answer.OpenPending?)
              case None =>
                && Waiting() == old(Waiting()) && fates == old(fates)
                && (pendingOpen.None? ==> queue == [] && (wakeOnRequest || openQueueClosed))
                && (pendingOpen.Some? ==> pendingOpen.value !in left && answer.OpenPending? && wakeOnOpen)
    {
      Receive();
      if pendingOpen.None? {
        return None;
      }
      var req := pendingOpen.value;
      if req !in left && answer.OpenPending? {
        wakeOnOpen := true;
        return None;
      }
      var f := if req in left then Skipped(req) else Answered(req, answer);
      pendingOpen := None;
      RequestsAppend(fates, [f]);
      fates := fates + [f];
      fate := Some(f);
    }

    /** The request loop of one poll. */
    method ServeRequests(left: set<Request>, opens: seq<OpenAnswer>)
      requires Valid() && !finished
      modifies this
      ensures Valid() && !finished && arrived == old(arrived) && sendersGone == old(sendersGone)
      ensures var s := Serve(old(Waiting()), left, opens);
              fates == old(fates) + s.fates && Waiting() == s.rest
      ensures pendingOpen.None? ==> queue == [] && (wakeOnRequest || openQueueClosed)
      ensures pendingOpen.Some? ==> wakeOnOpen
    {
      wakeOnRequest, wakeOnOpen := false, false;
      var k := 0;
      ghost var all, done := Waiting(), [];
      assert opens[0..] == opens;
      while true
        invariant Valid() && !finished && arrived == old(arrived) && sendersGone == old(sendersGone)
        invariant 0 <= k <= |opens| && fates == old(fates) + done
        invariant ServedSoFar(all, left, opens, done, Waiting(), opens[k..])
        decreases |Waiting()|
      {
        ghost var waiting := Waiting();
        var fate := ServeNext(left, if k < |opens| then opens[k] else OpenPending);
        if fate.None? {
          break;
        }
        ServedMore(all, left, opens, done, waiting, opens[k..]);
        done := done + [fate.value];
        if fate.value.Answered? {
          k := k + 1;
        }
      }
    }

    /** The driver's future is dropped with everything it holds. */
    method Exit()
      requires Valid() && !finished
      modifies this
      ensures Valid() && finished && Waiting() == [] && arrived == old(arrived) && sendersGone == old(sendersGone)
      ensures fates == old(fates) + DropAll(old(Waiting()))
    {
      RequestsAppend(fates, DropAll(Waiting()));
      fates := fates + DropAll(Waiting());
      pendingOpen, queue, finished := None, [], true;
    }

    /** One poll of `drive_client`: serve requests, then pump the engine.  Ready means the driver
        exits, which drops the stashed request and the queue. */
    method Poll(left: set<Request>, opens: seq<OpenAnswer>, inbound: seq<Inbound>) returns (ready: bool)
      requires Valid() && !finished
      modifies this
      ensures Valid() && sendersGone == old(sendersGone)
      ensures ready <==> exists j: nat :: EndsAt(inbound, j)
      ensures ready == finished && (ready ==> Waiting() == [])
      ensures Seen() == After(old(Seen()), Polled(left, opens, inbound))
      ensures !ready ==> wakeOnInbound
      ensures !ready && pendingOpen.None? ==> queue == [] && (wakeOnRequest || openQueueClosed)
      ensures !ready && pendingOpen.Some? ==> wakeOnOpen
    {
      ServeRequests(left, opens);
      ready := PumpEngine(inbound);
      wakeOnInbound := !ready;
      if ready {
        Exit();
      }
    }
  }

  /** The second loop of a poll: unexpected server-initiated streams are dropped. */
  method PumpEngine(inbound: seq<Inbound>) returns (ended: bool)
    ensures ended == Ends(inbound)
    ensures ended <==> exists j: nat :: EndsAt(inbound, j)
  {
    EndsIff(inbound);
    var j := 0;
    assert inbound[0..] == inbound;
    while j < |inbound| && inbound[j].Unexpected?
      invariant 0 <= j <= |inbound| && Ends(inbound) == Ends(inbound[j..])
    {
      assert inbound[j..][1..] == inbound[j + 1..];
      j := j + 1;
    }
    ended := j < |inbound| && !inbound[j].Idle?;
  }

  // --------------------------------------------------------------------- runs

  /** What a driver has seen and done, as a value. */
  datatype Log = Log(arrived: seq<Request>, fates: seq<Fate>, waiting: seq<Request>, finished: bool)

  datatype Event = Sent(req: Request) | Polled(left: set<Request>, opens: seq<OpenAnswer>, inbound: seq<Inbound>)

  /** The effect of `Send` and `Poll` on the log. */
  function After(l: Log, e: Event): Log {
    if l.finished then l
    else match e
      case Sent(req) => l.(arrived := l.arrived + [req], waiting := l.waiting + [req])
      case Polled(left, opens, inbound) =>
        var s := Serve(l.waiting, left, opens);
        if Ends(inbound) then l.(fates := l.fates + s.fates + DropAll(s.rest), waiting := [], finished := true)
        else l.(fates := l.fates + s.fates, waiting := s.rest)
  }

  function AfterAll(es: seq<Event>): Log {
    if es == [] then Log([], [], [], false) else After(AfterAll(es[..|es| - 1]), es[|es| - 1])
  }

  /** The `i`-th event is a poll that answered or skipped a request with fate `f`. */
  ghost predicate ServedIn(es: seq<Event>, i: nat, f: Fate) {
    && i < |es| && es[i].Polled? && !AfterAll(es[..i]).finished
    && f in Serve(AfterAll(es[..i]).waiting, es[i].left, es[i].opens).fates
  }

  lemma ServedInLonger(es: seq<Event>, n: nat, i: nat, f: Fate)
    requires n <= |es| && ServedIn(es[..n], i, f)
    ensures ServedIn(es, i, f)
  {
    assert es[..n][..i] == es[..i];
  }

  /** Where a fate comes from: the driver's exit, or some poll. */
  lemma {:induction false} FateIsServedOrDropped(es: seq<Event>, f: Fate)
    requires f in AfterAll(es).fates
    ensures (f.Dropped? && AfterAll(es).finished) || exists i: nat :: ServedIn(es, i, f)
  {
    var n := |es| - 1;
    var front := es[..n];
    if f in AfterAll(front).fates {
      FateIsServedOrDropped(front, f);
      if i: nat :| ServedIn(front, i, f) {
        ServedInLonger(es, n, i, f);
      }
    } else if f in Serve(AfterAll(front).waiting, es[n].left, es[n].opens).fates {
      assert ServedIn(es, n, f);
    } else {
      assert f in DropAll(Serve(AfterAll(front).waiting, es[n].left, es[n].opens).rest);
    }
  }

  /** Why a request has its fate: it was dropped only by the driver's exit, answered only with a result,
      which a poll got from the connection while the requester was there, and skipped only in a poll that
      found its requester gone. */
  lemma FatesHaveCauses(es: seq<Event>, f: Fate)
    requires f in AfterAll(es).fates
    ensures f.Dropped? <==> forall i: nat :: !ServedIn(es, i, f)
    ensures f.Dropped? ==> AfterAll(es).finished
    ensures f.Answered? ==> exists i: nat ::
              ServedIn(es, i, f) && f.req !in es[i].left && f.answer in es[i].opens && !f.answer.OpenPending?
    ensures f.Skipped? ==> exists i: nat :: ServedIn(es, i, f) && f.req in es[i].left
  {
    FateIsServedOrDropped(es, f);
    forall i: nat | ServedIn(es, i, f)
      ensures !f.Dropped? && (f.Skipped? <==> f.req in es[i].left)
      ensures f.Answered? ==> f.answer in es[i].opens && !f.answer.OpenPending?
    {
      var waiting := AfterAll(es[..i]).waiting;
      ServeSkipsExactlyLeavers(waiting, es[i].left, es[i].opens);
      if f.Answered? {
        ServeAnswersAreResults(waiting, es[i].left, es[i].opens, f);
      }
    }
  }

  lemma {:induction false} ServeAnswersAreResults(waiting: seq<Request>, left: set<Request>, opens: seq<OpenAnswer>, f: Fate)
    requires f in Serve(waiting, left, opens).fates && f.Answered?
    ensures f.answer in opens && !f.answer.OpenPending?
    decreases |waiting|
  {
    if waiting[0] in left {
      ServeAnswersAreResults(waiting[1..], left, opens, f);
    } else if f != Answered(waiting[0], opens[0]) {
      ServeAnswersAreResults(waiting[1..], left, opens[1..], f);
    }
  }

  /** The requests of the sends among the events. */
  function SentIn(es: seq<Event>): seq<Request> {
    if es == [] then []
    else SentIn(es[..|es| - 1]) + if es[|es| - 1].Sent? then [es[|es| - 1].req] else []
  }

  /** What arrives is what was sent before the exit, in order. */
  lemma {:induction false} ArrivedIsSent(es: seq<Event>)
    ensures AfterAll(es).arrived <= SentIn(es) && (!AfterAll(es).finished ==> AfterAll(es).arrived == SentIn(es))
  {
    if es != [] {
      ArrivedIsSent(es[..|es| - 1]);
    }
  }

  /** Over any sequence of sends and polls: the n-th fate is that of the n-th request to arrive, requests
      without a fate are still waiting in arrival order, and once the driver has exited every request has
      its fate, those it had neither answered nor skipped being dropped, which only the exit does. */
  lemma FatesFollowArrivals(es: seq<Event>)
    ensures var l := AfterAll(es);
            && Requests(l.fates) + l.waiting == l.arrived <= SentIn(es)
            && (if l.finished then l.waiting == [] else l.arrived == SentIn(es))
            && (l.finished <==> exists i :: 0 <= i < |es| && SeesEnd(es[i]))
            && (forall f | f in l.fates && f.Dropped? :: l.finished)
  {
    FatesAndWaiting(es);
    FinishedIff(es);
    ArrivedIsSent(es);
    forall f | f in AfterAll(es).fates && f.Dropped?
      ensures AfterAll(es).finished
    {
      FatesHaveCauses(es, f);
    }
  }

  /** The event is a poll that sees the end of the connection. */
  ghost predicate SeesEnd(e: Event) {
    e.Polled? && exists j: nat :: EndsAt(e.inbound, j)
  }

  lemma {:induction false} FinishedIff(es: seq<Event>)
    ensures AfterAll(es).finished <==> exists i :: 0 <= i < |es| && SeesEnd(es[i])
  {
    if es != [] {
      var n := |es| - 1;
      FinishedIff(es[..n]);
      if es[n].Polled? {
        EndsIff(es[n].inbound);
      }
      if i :| 0 <= i < |es[..n]| && SeesEnd(es[..n][i]) {
        assert SeesEnd(es[i]);
      }
      if i :| 0 <= i < |es| && SeesEnd(es[i]) {
        assert i < n ==> SeesEnd(es[..n][i]);
      }
    }
  }

  lemma {:induction false} FatesAndWaiting(es: seq<Event>)
    ensures var l := AfterAll(es);
            Requests(l.fates) + l.waiting == l.arrived && (l.finished ==> l.waiting == [])
  {
    if es != [] {
      var before, e := AfterAll(es[..|es| - 1]), es[|es| - 1];
      FatesAndWaiting(es[..|es| - 1]);
      if !before.finished && e.Polled? {
        var s := Serve(before.waiting, e.left, e.opens);
        ServeKeepsOrder(before.waiting, e.left, e.opens);
        RequestsAppend(before.fates, s.fates);
        RequestsAppend(before.fates + s.fates, DropAll(s.rest));
      }
    }
  }

  /** A fate, once given, is final. */
  lemma {:induction false} FatesAreFinal(es: seq<Event>, more: seq<Event>)
    ensures AfterAll(es).fates <= AfterAll(es + more).fates
    ensures AfterAll(es).arrived <= AfterAll(es + more).arrived
    decreases |more|
  {
    if more == [] {
      assert es + more == es;
    } else {
      var front := more[..|more| - 1];
      FatesAreFinal(es, front);
      assert (es + more)[..|es + more| - 1] == es + front;
    }
  }
}

# Interlink: a verified model

Interlink is a service-mesh sidecar. It accepts plain connections from its workload and carries them to
peers over mutual TLS, and accepts mutual TLS from peers and hands the bytes to its workload. This project
models the parts of it where many tasks share state or where one piece of code must agree with another,
and proves what they promise for every input and for every interleaving of tasks.

| file | models |
|---|---|
| `ByteStrings.dfy` | byte strings, `Option`, substring search |
| `SegmentGlobs.dfy` | the compiler from a glob to seven shapes, and the matcher |
| `SpiffeIds.dfy` | the SPIFFE URI parser and printer, compiled patterns |
| `Policies.dfy` | first-match policy evaluation and the rule constructors |
| `MuxPools.dfy` | the pool of client tunnels, as classes |
| `OutboundRoutes.dfy` | one routing call with the pool to itself, in place |
| `Routing.dfy`, `RoutingInvariants.dfy` | all routing calls, tunnels and drivers as interleaved steps, and their invariant |
| `RoutingTheorems.dfy`, `RoutingOutcomes.dfy`, `RoutingBounds.dfy`, `RoutingSoftCap.dfy`, `RoutingCalls.dfy` | what follows for every run |
| `TunnelDrivers.dfy` | the poll loop that drives one client tunnel |
| `Discovery.dfy`, `DiscoveryRuns.dfy` | the DNS cache and its single-flight lookups |
| `DiscoveryPreemption.dfy` | leader election with preemption between any two shared accesses |
| `Admission.dfy`, `AdmissionRuns.dfy` | connection permits, the active counter, graceful shutdown |
| `Accounting.dfy`, `AccountingRuns.dfy`, `Handlers.dfy` | the connection handlers, the metrics they charge, the inbound policy check |
| `Counting.dfy` | counting the entries of a map |

## How it is modelled

Code that a single task runs is an ordinary method or function. Code that tasks run against each other is a
step system: a state, an action per atomic access, and a run of any length. Handshakes, ALPN, stream opens,
lookups, clocks, reads and writes come from outside as parameters or actions, so each theorem holds whatever
they are; the policy is the engine of `Policies.dfy`, and may change between any two steps. Strings are byte
sequences and numbers are unbounded.

Granularity:

* Routing reads the load of one tunnel per step. The list of a peer's tunnels is locked while a scan reads it,
  the loads are not. The two reads of one load, for the cap and for the minimum, are one. Each policy evaluation
  and each registration is one step. Every routing theorem holds so, except `HandshakesAmortise` and
  `ConnectionsShareHandshakes` for more than one tunnel: these take scans as uninterrupted (`atomicScans`).
* `Discovery` takes each stretch of `resolve` without an await as one step. `DiscoveryPreemption` drops that.
* `Admission` and `Accounting` take every single counter update as a step.

## Where the code and its prose differ

The model follows the code.

* `docs/rfcs/rfc-5280-x509.md:41` says wildcards in a trust domain are rejected. The parser accepts `*` there
  and compares it literally (`StarTrustDomainIsLiteral`).
* `docs/architecture/overview.md:36` says each stream of an inbound tunnel is policy-checked. The code checks
  once, when the tunnel is accepted (`StreamsShareOneCheck` has two streams and one check);
  `ForwardedMeansAllowed` says what that guarantees.
* `src/discovery/dns.rs:100` promises at most one lookup per name at a time. With preemption between cloning the
  semaphore and acquiring it this is false (`LookupCanDouble`, `TimelyStepCanDouble`); `SingleFlightIff` gives the
  exact condition. A waiter whose leader was cancelled can fail although no lookup of its name has finished
  (`CancelledLeaderFailsWaiter`); `WaiterOutcome` says exactly which waiters are served.
* An identity built by `try_new` with an upper-case trust domain does not match its own URI used as a pattern
  (`UpperCaseMissesItself`); `SelfMatchIff` gives the exact condition. Identities that went through the parser
  always match themselves.

## Model

| member | source | states |
|---|---|---|
| SegmentGlobs.SplitAtStars | src/common/identity.rs:25-34 | the parts are the maximal star-free runs of the pattern, in order, with nothing but stars between them |
| SegmentGlobs.New | src/common/identity.rs:16-61 | the compiled shape is the one its pattern's runs and anchors call for, star-free patterns being exact |
| SegmentGlobs.GreedyIsComplete | src/common/identity.rs:123-129 | taking the leftmost occurrence of a literal never loses a match that some other choice would find |
| SegmentGlobs.SearchLoop | src/common/identity.rs:123-130 | true exactly when the literals occur one after another without overlap inside the window |
| SegmentGlobs.MatchesMulti | src/common/identity.rs:88-131 | true exactly when the value reads as the anchored prefix, the floating literals in order and the anchored suffix, without overlap |
| SegmentGlobs.BehindStarIsSearch | src/common/identity.rs:88-131 | behind a star, the recursive meaning of the rest of a pattern is the ordered search of its remaining literals |
| SegmentGlobs.SplitsMean | src/common/identity.rs:25-60 | the runs of a pattern and its two anchors carry its whole recursive meaning |
| SegmentGlobs.Matches | src/common/identity.rs:63-86 | for each of the seven shapes, a compiled glob accepts exactly the values in the recursive meaning of its pattern |
| SegmentGlobs.GlobIsReflexive | src/common/identity.rs:63-86 | every pattern, stars included, accepts its own text |
| SegmentGlobs.GlobIsExactIff | src/common/identity.rs:63-86 | a pattern accepts only its own text exactly when it has no star |
| SpiffeIds.ParseIff | src/common/identity.rs:166-251 | the parser accepts exactly a scheme in any case followed by a body of three segments, each non-empty and free of its forbidden bytes, and returns those segments |
| SpiffeIds.WellFormedIff | src/common/identity.rs:198-246 | the bytes each segment may hold, one by one |
| SpiffeIds.LowerIsAsciiLower | src/common/identity.rs:360-367 | lower-casing maps `A` to `Z` onto `a` to `z` in order and leaves every other byte alone |
| SpiffeIds.ToUri | src/common/identity.rs:345-356 | the buffer ends up exactly as long as the capacity it was given and holds the printed identity |
| SpiffeIds.PrintedText | src/common/identity.rs:345-356 | the printed identity is the text spiffe://, trust domain, /ns/, namespace, /sa/, service account |
| SpiffeIds.NoStraySlashes | src/common/identity.rs:345-367 | by counting slashes, an identity that prints like a well-formed one has no slash inside its trust domain or namespace |
| SpiffeIds.BodyIsInjective | src/common/identity.rs:345-367 | no identity, however odd its segments, prints like a different well-formed one |
| SpiffeIds.PrintThenParse | src/common/identity.rs:345-367 | for every triple of strings, parsing the printed form fails or returns the triple with only its trust domain lower-cased, and it succeeds exactly for well-formed triples |
| SpiffeIds.ParseThenPrint | src/common/identity.rs:345-367 | printing what was parsed gives back the URI with only scheme and authority lower-cased |
| SpiffeIds.ParseIsIdempotent | src/common/identity.rs:360-367 | what the parser returns is well-formed with a lower-case trust domain, and its printed form parses to it again |
| SpiffeIds.SameIdentityIff | src/common/identity.rs:360-367 | two accepted URIs give the same identity exactly when they agree up to the case of scheme and authority |
| SpiffeIds.PatternFromUri | src/common/identity.rs:264-271 | patterns are accepted exactly like identities, and the compiled segments mean their text |
| SpiffeIds.PatternAny | src/common/identity.rs:274-280 | the pattern built without a URI matches every identity |
| SpiffeIds.MatchesCompiled | src/common/identity.rs:381-385 | true exactly when the trust domains agree, or the pattern has none, and both segments are in the globs' meaning |
| SpiffeIds.MatchesPattern | src/common/identity.rs:373-378 | true exactly when the pattern parses and denotes the identity; a malformed pattern matches nothing |
| SpiffeIds.SelfMatchIff | src/common/identity.rs:264-271 | an identity matches its own printed URI exactly when it is well-formed and its trust domain is in lower case |
| SpiffeIds.UpperCaseMissesItself | src/common/identity.rs:314-343 | an identity that `try_new` accepts and that does not match its own printed URI |
| SpiffeIds.StarTrustDomainIsLiteral | src/common/identity.rs:198-206 | a URI with `*` for its trust domain parses, and matches identities of the trust domain `*` only |
| SpiffeIds.ParsedMatchesItself | src/common/identity.rs:360-385 | every identity that went through the parser matches its own URI |
| SpiffeIds.OnlyMatchIff | src/common/identity.rs:381-385 | a pattern's only match is its own text exactly when its trust domain is fixed and neither segment has a star |
| Policies.FirstMatchIff | src/policy/mod.rs:62-94 | a scan decides as some applying rule before which none applies, and only so |
| Policies.Scan | src/policy/mod.rs:74-80 | one loop over a rule list returns the decision of the first rule whose two patterns denote source and destination |
| Policies.PolicyEngine.constructor | src/policy/mod.rs:55-61 | a new engine holds no rule and denies |
| Policies.PolicyEngine.Evaluate | src/policy/mod.rs:71-94 | the decision is the first match over the destination namespace's rules followed by the globals, else the default |
| Policies.EvaluationOrder | src/policy/mod.rs:62-94 | by index: the first applying rule of the destination's namespace decides; if none applies there, the first applying global rule; if none applies at all, the default |
| Policies.PolicyEngine.AddNamespaceRule | src/policy/mod.rs:97-102 | the rule goes behind those of its namespace and everything else stays |
| Policies.PolicyEngine.SetGlobalPolicies | src/policy/mod.rs:105-107 | the globals are replaced and everything else stays |
| Policies.PolicyEngine.SetDefaultDecision | src/policy/mod.rs:110-112 | the default is replaced and everything else stays |
| Policies.AddedRuleDecides | src/policy/mod.rs:97-102 | a rule added to a namespace decides every pair it applies to that no rule there did |
| Policies.NewGlobalsDecide | src/policy/mod.rs:105-107 | new globals decide, in their order, what the namespace's rules leave open, and the default the rest |
| Policies.NewDefaultDecides | src/policy/mod.rs:110-112 | a new default decides exactly the pairs to which no rule applies |
| Policies.FiledOnlyGrows | src/policy/mod.rs:97-107 | over any sequence of changes the rules of a namespace keep their order and only gain rules at the end |
| Policies.NamespaceDecisionIsFinal | src/policy/mod.rs:71-112 | a decision once made by a namespace rule is the same after any sequence of additions, replacements and default changes |
| Policies.OtherNamespacesNeverMatter | src/policy/mod.rs:71-112 | leaving out every rule added to another namespace changes no decision |
| Policies.AllowRule | src/policy/mod.rs:131-138 | the rule exists exactly when both URIs parse, and then allows what they denote |
| Policies.AllowSameNamespace | src/policy/mod.rs:120-128 | the rule exists exactly for a well-formed pattern, and applies exactly to pairs of that trust domain, up to its case, whose namespaces both match |
| Policies.DenyRule | src/policy/mod.rs:141-148 | the rule exists exactly when the URI parses, and then applies to every destination for exactly the sources it denotes |
| Policies.DaemonPolicy | src/main.rs:75-81 | the start-up policy exists exactly for a well-formed identity, and allows exactly the pairs that identity's URI denotes |
| Policies.DaemonRuleIff | src/main.rs:75-81 | a parsed identity may talk to itself, and nothing else may talk exactly when its namespace and service account have no star |
| MuxPools.Least | src/proxy/mux.rs:188-202 | the entry is the first of the least loaded among the eligible ones, and there is none exactly when no entry is eligible |
| MuxPools.WithoutDistinct | src/proxy/mux.rs:210-214 | among distinct ids, removal takes at most one entry and leaves the ids distinct |
| MuxPools.WithoutCommutes | src/proxy/mux.rs:210-214 | evictions commute and repeating one changes nothing |
| MuxPools.Tunnel.Reserve | src/proxy/mux.rs:146-147 | the slot is counted before the stream is opened |
| MuxPools.Tunnel.Release | src/proxy/mux.rs:66-70 | dropping the guard gives back one slot |
| MuxPools.MuxPool.Pick | src/proxy/mux.rs:188-202 | one pass over the live counters finds the first least loaded eligible tunnel |
| MuxPools.MuxPool.PickUnderCap | src/proxy/mux.rs:188-195 | nothing is picked exactly when every tunnel has 200 streams or more, else a least loaded one below that |
| MuxPools.MuxPool.PickAny | src/proxy/mux.rs:199-202 | nothing is picked exactly when the peer has no tunnel, else a least loaded one |
| MuxPools.MuxPool.CanGrow | src/proxy/mux.rs:205-207 | true exactly below sixteen tunnels |
| MuxPools.MuxPool.Evict | src/proxy/mux.rs:210-214 | exactly the tunnels with that id leave, in place, and no other address changes |
| MuxPools.MuxPool.CreationLock | src/proxy/mux.rs:218-224 | the lock of an address is made on first use, differs from every other address's, and is never replaced |
| MuxPools.MuxPool.Register | src/proxy/mux.rs:229-254 | the tunnel joins the end of its peer's list under an id never used before, with no stream |
| OutboundRoutes.TryTunnelStream | src/proxy/outbound.rs:388-412 | a denied peer ends the call, a stream that opens keeps one slot, and a tunnel that does not open one gives its slot back and leaves the pool, if it is still there, as the only one |
| OutboundRoutes.PickForAttempt | src/proxy/outbound.rs:345-376 | a tunnel that another call registers while this one waits for the lock is the one the recheck finds; nothing is picked exactly when all tunnels are at the cap and there is room for one more |
| OutboundRoutes.Establish | src/proxy/outbound.rs:416-466 | denial, plain connection, stream and failure each have their exact cause in handshake, policy, ALPN and first open, and nothing but an allowed tunnel carrying its first stream stays in the pool |
| OutboundRoutes.Attempt | src/proxy/outbound.rs:343-381 | an attempt repeats only behind the eviction of a tunnel that would not open, asks for a handshake exactly when the pool is crowded and no tunnel arrives, and otherwise ends with a stream that opened on a least loaded allowed tunnel or with a denial |
| OutboundRoutes.Attempts | src/proxy/outbound.rs:343-383 | each attempt before the last met a tunnel that would not open; the loop fails exactly when all four did, and otherwise the attempt behind them decides |
| OutboundRoutes.RouteTo | src/proxy/outbound.rs:337-384 | a call makes at most one handshake, with mux only for want of capacity, and its outcome has its exact cause in the opens, the policy and the handshake; the pool loses exactly the dead tunnels met, gains from it at most the stream's own and stays within sixteen; every other slot is untouched |
| RoutingInvariants.EffectFits | src/proxy/outbound.rs:337-466 | every step of a task keeps its slot, lock and handshake in balance and its tunnel and peer in order |
| RoutingInvariants.NextInv | src/proxy/outbound.rs:337-466 | every action of tasks, drivers and policy changes keeps the invariant of the whole system, scans under way included |
| RoutingInvariants.LockExcludes | src/proxy/mux.rs:218-224 | two tasks bound for one address are never both under its creation lock |
| RoutingTheorems.AtMostSixteenTunnels | src/proxy/outbound.rs:355-371 | with mux, in every state of every run, an address's tunnels and connections under way together are at most sixteen |
| RoutingTheorems.SumIsSlots | src/proxy/mux.rs:144-165 | the live counters of any first tunnels add up to the tasks holding a slot on them |
| RoutingTheorems.StreamSlotsAreConserved | src/proxy/mux.rs:60-165 | in every state of every run each live counter equals its opens past reservation plus its streams not yet dropped, and all together stay within the permits in use |
| RoutingTheorems.CountersNeverUnderflow | src/proxy/mux.rs:65-70 | on every path, error and cancellation included, giving a slot back finds the counter above zero and lowers it by one |
| RoutingTheorems.PoolStep | src/proxy/mux.rs:210-243 | a pool changes only by one registration at its end or by the removal of one tunnel |
| RoutingTheorems.EvictionRemovesOnlyItsTunnel | src/proxy/mux.rs:210-214 | no eviction, by a driver or a failing opener, removes any tunnel but the one it names |
| RoutingTheorems.EvictionTakesEffect | src/proxy/mux.rs:210-252 | behind an eviction, by a driver or a failing opener, its tunnel is out of the pool |
| RoutingTheorems.EvictedForGood | src/proxy/mux.rs:118-127 | a tunnel out of its pool never returns to it, since ids are not reused |
| RoutingTheorems.NeverPickedAgain | src/proxy/mux.rs:188-214 | no scan, under way or started later, picks a tunnel that has left its pool |
| RoutingOutcomes.OutcomeIsTold | src/proxy/outbound.rs:337-466 | in every run a call returns a stream, a plain connection, a denial or a failure exactly as the answers it got say, fails over the pool only after four failed attempts, and ends as soon as it is told |
| RoutingOutcomes.EndingHasCause | src/proxy/outbound.rs:337-466 | what ended a call was told to it at a step of its own |
| RoutingOutcomes.ScanDecides | src/proxy/mux.rs:188-202 | a scan reads each load in order and then goes on with the first least loaded eligible tunnel, or, with none, as its place in the loop says |
| RoutingOutcomes.DirectWithoutMux | src/proxy/outbound.rs:338-340 | with mux disabled a call goes straight to its handshake, without scans, locks or retries |
| RoutingBounds.CrowdedOut | src/proxy/outbound.rs:359-371 | a task without a slot at an address whose tunnels are all full proves more than 200 connections per tunnel outstanding there |
| RoutingBounds.HandshakesAmortise | src/proxy/outbound.rs:337-384 | with at most 200k connections to a peer outstanding, tunnels and handshakes under way never exceed k, and the run begins at most k handshakes with it beyond those that came to nothing or whose tunnel was evicted |
| RoutingBounds.CleanRunLosesNothing | src/proxy/outbound.rs:416-466 | whatever happens at other addresses and to other peers, a run that goes well at one address wastes no handshake with it and loses no tunnel of it |
| RoutingBounds.ConnectionsShareHandshakes | src/proxy/outbound.rs:337-384 | in a run that goes well at an address, 200k connections outstanding there share k handshakes |
| RoutingBounds.TwoHundredShareOneHandshake | src/proxy/outbound.rs:337-384 | in such a run 200 outstanding connections share one handshake, however scans and other steps interleave |
| RoutingSoftCap.SoftCapOvershoot | src/proxy/outbound.rs:343-381 | while a peer stays below sixteen tunnels and at most k calls to it overlap, streams plus picks under way on each of its tunnels are at most 199 + k, however out of date the loads read are |
| RoutingCalls.ApprovalHasCause | src/proxy/outbound.rs:388-436 | every Allow on record was given by the policy to that task for that peer at an earlier step |
| RoutingCalls.RoutedMeansAllowed | src/proxy/outbound.rs:337-466 | a call that returns a stream or connection was told Allow before, in the same call, for the identity of the very peer carrying it |
| RoutingCalls.PooledMeansAllowed | src/proxy/outbound.rs:430-451 | a denied peer never enters the pool: whoever registered a pooled tunnel was told Allow for its peer |
| RoutingCalls.CallsAreBounded | src/proxy/outbound.rs:343-383 | however the others run, a call ends after at most 81 steps of its own besides the loads it reads, of which a scan reads each at most once |
| RoutingCalls.NoDeadlock | src/proxy/outbound.rs:355-372 | an unfinished task can move whichever answer it gets, or is kept waiting by a scan or a lock holder that can, directly or one step removed |
| RoutingCalls.TasksComeAndGo | src/proxy/outbound.rs:241-250 | connections can start while there are permits and be cancelled at any point |
| RoutingCalls.DriversComeToAnEnd | src/proxy/mux.rs:248-252 | a driver can end, and the policy change, at any time |
| RoutingCalls.EndedDriversEvict | src/proxy/mux.rs:248-252 | a driver that has ended can evict its tunnel once the list is free |
| TunnelDrivers.ServeKeepsOrder | src/proxy/mux.rs:272-299 | fates given in one poll followed by what still waits are the waiting requests, in order |
| TunnelDrivers.ServeUsesAnswersInOrder | src/proxy/mux.rs:288-296 | each stream the connection opened went to exactly one requester, in order, and what is left is blocked on the connection |
| TunnelDrivers.ServeSkipsExactlyLeavers | src/proxy/mux.rs:283-287 | exactly the requesters that left are skipped |
| TunnelDrivers.TunnelDriver.Send | src/proxy/mux.rs:149-152 | a request is queued behind the others, or refused once the driver has exited |
| TunnelDrivers.TunnelDriver.ServeNext | src/proxy/mux.rs:273-298 | one turn disposes of the oldest waiting request, or stops with the queue empty and watched or the request stashed and the open watched |
| TunnelDrivers.TunnelDriver.ServeRequests | src/proxy/mux.rs:272-299 | the request loop terminates and does to the waiting requests what one poll should |
| TunnelDrivers.TunnelDriver.Exit | src/proxy/mux.rs:311-321 | the exiting driver fails every request it has not answered, stashed and queued |
| TunnelDrivers.TunnelDriver.Poll | src/proxy/mux.rs:270-319 | a poll is ready, and the driver finished with nothing waiting, exactly when an error or a close is reported behind nothing but unexpected streams; one that is pending leaves the engine and either the queue or the stashed open registered for wake-up |
| TunnelDrivers.PumpEngine | src/proxy/mux.rs:303-318 | the end is seen exactly when an error or a close is reported with nothing but unexpected streams before it |
| TunnelDrivers.FatesFollowArrivals | src/proxy/mux.rs:263-321 | over any sequence of sends and polls the n-th fate is that of the n-th request sent, requests without one still wait in order, and the first poll to see the end, and nothing else, drops all that are left |
| TunnelDrivers.FatesHaveCauses | src/proxy/mux.rs:283-296 | a request was answered only with a result that a poll got from the connection while the requester was there, and skipped only in a poll that found it gone |
| TunnelDrivers.FatesAreFinal | src/proxy/mux.rs:263-321 | what has been decided about a request is never revised |
| Discovery.ServiceDiscovery.Resolve | src/discovery/dns.rs:102-125 | the fast path serves only an unexpired success, otherwise the caller leads or waits on its name's semaphore |
| Discovery.ServiceDiscovery.Complete | src/discovery/dns.rs:122-136 | the leader stores the outcome with its expiry, leaves the flight and gives its permit back |
| Discovery.ServiceDiscovery.ReadBack | src/discovery/dns.rs:139-147 | a woken waiter gets the stored success, or fails |
| Discovery.ServiceDiscovery.ClearCache | src/discovery/dns.rs:158-160 | the cache is emptied and lookups in flight are untouched |
| DiscoveryRuns.NextInv | src/discovery/dns.rs:102-160 | calls, lookups, wake-ups, cancellation, clearing and time all keep the protocol's invariant |
| DiscoveryRuns.SingleFlight | src/discovery/dns.rs:113-137 | in every run, cancellation and clearing included, no name is being looked up twice at once |
| DiscoveryRuns.LookedUpIff | src/discovery/dns.rs:115-136 | a name is being looked up exactly while it is in flight under a semaphore whose permit is held |
| DiscoveryRuns.InFlightWhileLookedUp | src/discovery/dns.rs:115-136 | without cancellation a name is in flight exactly while it is being looked up |
| DiscoveryRuns.WaitersWake | src/discovery/dns.rs:139-143 | every waiter can wake, or the lookup it waits for is still running and can finish, whereupon the waiter can wake |
| DiscoveryRuns.WaiterOutcome | src/discovery/dns.rs:139-147 | a lookup of a waiter's name has finished while it waited exactly when its semaphore has left the flight; then it returns the last such outcome, or fails after a clearing, and otherwise, which takes a cancelled leader, what an earlier lookup stored, or fails |
| DiscoveryRuns.FastPathIff | src/discovery/dns.rs:104-111 | the fast path serves a name exactly when it is cached and its last lookup was a success younger than the TTL, and then that success |
| DiscoveryRuns.LeadsIff | src/discovery/dns.rs:115-143 | behind the fast path a call leads exactly when nobody is looking its name up, and else waits for the lookup under way |
| DiscoveryRuns.LeaderOutcome | src/discovery/dns.rs:122-136 | a leader returns what its lookup found, stores just that, and its name is no longer being looked up |
| DiscoveryRuns.FailureHasCause | src/discovery/dns.rs:102-148 | without cancelled leaders and cleared caches a call fails only because a lookup of its name did |
| DiscoveryRuns.CacheAgreesWithResolver | src/discovery/dns.rs:122-134 | each entry is the last outcome of a lookup of that very name expiring a TTL after it was stored, and every success returned came from such a lookup |
| DiscoveryRuns.CancelledLeaderFailsWaiter | src/discovery/dns.rs:122-147 | a run in which a waiter fails although no lookup finished and nothing was cleared, because its leader was cancelled |
| DiscoveryPreemption.NextInv | src/discovery/dns.rs:115-136 | with free preemption, every held permit still belongs to exactly one leader of its semaphore's name |
| DiscoveryPreemption.DoublesExactlyWhenLedElsewhere | src/discovery/dns.rs:115-136 | at every step of every run, a lookup is doubled exactly by acquiring a free semaphore of the name while another one of it has a leader still looking |
| DiscoveryPreemption.SingleFlightIff | src/discovery/dns.rs:115-136 | a run keeps single flight for a name exactly when it has no such step |
| DiscoveryPreemption.DoubleNeedsStale | src/discovery/dns.rs:115-136 | a doubled lookup needs the acquisition, before it, of a semaphore its name has moved on from |
| DiscoveryPreemption.LookupCanDouble | src/discovery/dns.rs:115-136 | for every name, a reachable state in which a stale acquisition doubles a lookup |
| DiscoveryPreemption.TimelyStepCanDouble | src/discovery/dns.rs:115-136 | for every name, a reachable state in which the doubling acquisition is not the stale one |
| Admission.NextInv | src/proxy/tcp.rs:165-263 | every atomic step of acceptors, connection tasks and the shutdown wait keeps permits, counter, rejections and fates in agreement |
| AdmissionRuns.AdmissionBound | src/proxy/tcp.rs:222-234 | in every run the active count is at most the permits held, those at most the limit, and whenever nothing is being handled every permit is back |
| AdmissionRuns.AcceptedAreAccountedFor | src/proxy/outbound.rs:215-260 | accepted connections are those being decided, those without upstream, one per saturation record and those handed over, and once all acceptors stopped none is undecided |
| AdmissionRuns.FatesAreFinal | src/proxy/tcp.rs:205-243 | a connection dropped, rejected or handed over stays so |
| AdmissionRuns.ServedOnce | src/proxy/tcp.rs:226-234 | a connection is handed to a task, which then runs its handler, at most once, and then is neither dropped nor rejected at any time |
| AdmissionRuns.TurnedAwayIff | src/proxy/tcp.rs:210-242 | a connection is dropped exactly for want of an upstream and rejected exactly when it has one and all permits are held, with exactly one saturation record |
| AdmissionRuns.CountOnlyFalls | src/proxy/tcp.rs:186-200 | once all acceptors have stopped no handler starts and the active count never rises |
| AdmissionRuns.CompleteMeansDrained | src/proxy/tcp.rs:245-253 | from the moment shutdown is called complete, no handler runs or will run and every accepted connection has its final fate |
| AdmissionRuns.NobodySticks | src/proxy/tcp.rs:174-263 | an acceptor can always go on, saturated or not, and stop once signalled; a task can always go on to give back count and permit; and the wait can begin, complete at zero and expire |
| AdmissionRuns.WaitShutdown | src/proxy/mod.rs:161-174 | resolves exactly when the channel says or comes to say shutdown or loses its sender, at the first value that says so, and never without a channel |
| AdmissionRuns.ConnectionGate.HandleAccept | src/proxy/outbound.rs:215-260 | the connection is dropped, rejected or running, exactly as upstream and permits say, with the counters in step |
| AdmissionRuns.ConnectionGate.Finish | src/proxy/outbound.rs:246-250 | a finished task gives back its count and its permit |
| AdmissionRuns.ConnectionGate.WaitForGracefulShutdown | src/proxy/outbound.rs:262-280 | complete exactly when drained, at the first look that could tell, and expired only with the whole grace period used |
| Accounting.NextInv | src/metrics/mod.rs:65-114 | after every single counter update of every interleaving, each counter equals the number of handlers past that update, and no handler has passed the policy check without Allow |
| Accounting.ChargeMovesOne | src/metrics/mod.rs:65-114 | each update of a settlement moves exactly the counter it names, and only the last frees the gauge |
| AccountingRuns.GaugeIsStartedMinusEnded | src/metrics/mod.rs:81-84 | in every state of every run the active gauge is the handlers started minus those ended |
| AccountingRuns.TotalIsBetween | src/metrics/mod.rs:65-79 | the total differs from the ended connections by at most the handlers in the middle of settling |
| AccountingRuns.TotalsAddUp | src/proxy/mod.rs:102-113 | with nobody in the middle of settling, the total is the ended handlers other than tunnels, errors are those that failed, and observations are total minus errors |
| AccountingRuns.SettlesExactlyOnce | src/proxy/tcp.rs:265-399 | over any run no handler makes an update twice, none leaves the gauge before it ends, and one that ended counted one start, one release and, unless a tunnel, one connection that is one error or one observation |
| AccountingRuns.EveryHandlerSettles | src/proxy/tcp.rs:265-399 | every handler takes at most eleven steps of its own and can take one as long as it has not settled |
| AccountingRuns.ForwardedMeansAllowed | src/proxy/tcp.rs:285-390 | if an inbound connection or a stream of an inbound tunnel has forwarded any byte, its connection's handshake named a peer and after that the policy then in force allowed exactly that peer to reach this workload |
| AccountingRuns.StreamsShareOneCheck | src/proxy/tcp.rs:321-351 | whenever the policy allows a peer there is a run in which two streams of its tunnel forward bytes and the policy was evaluated once |
| AccountingRuns.DeniedForwardsNothing | src/proxy/tcp.rs:321-333 | a connection whose peer the policy does not allow when it is asked forwards nothing, carries no stream and ends as one error, for the rest of the run |
| Handlers.CallsAreNeutral | src/metrics/mod.rs:65-114 | a whole call leaves the gauge as it was and adds one connection that is an error or an observation, or for a tunnel nothing |
| Handlers.Metrics.RecordConnectionStart | src/metrics/mod.rs:82-84 | the gauge goes up by one |
| Handlers.Metrics.RecordConnection | src/metrics/mod.rs:65-71 | one observation, one connection, the bytes of both directions and one slot back |
| Handlers.Metrics.RecordConnectionFailed | src/metrics/mod.rs:74-79 | one connection, one error, one slot back and no observation |
| Handlers.Metrics.RecordTunnelClosed | src/metrics/mod.rs:112-114 | one slot back and nothing else |
| Handlers.Metrics.RecordRelayResult | src/proxy/mod.rs:102-113 | the result is passed on unchanged, a success is settled as a connection and a failure as an error |
| Handlers.ResolveUpstream | src/proxy/outbound.rs:115-137 | a socket is itself; a host takes the first endpoint's address and its own port if it has one; none exactly for a host without discovery, answer or endpoint |
| Handlers.Authorise | src/proxy/tcp.rs:274-333 | a call goes on exactly when its upstream resolves and connects, the handshake gives a peer and the policy lets that peer reach this workload |
| Handlers.HandleInbound | src/proxy/tcp.rs:265-399 | on each of its exits the call settles once; it is a tunnel exactly when let in with mux, relayed exactly when let in without it and read, forward and copy succeed; it forwards exactly the prefix read, or the part of it a failing write got out, and nothing unless let in; and it is a path of the step-by-step handler |
| Handlers.HandleOutbound | src/proxy/outbound.rs:282-334 | on each of its exits the call settles once; it is relayed exactly when resolved and routed and the copy succeeds, its route having its exact cause and its peer being allowed; afterwards every stream slot is back; and it is a path of the step-by-step handler |
| Handlers.RelayStreamToUpstream | src/proxy/mux.rs:350-375 | a stream is settled once, by its relay exactly when its upstream connected; and it is a path of the step-by-step handler |

## Left out

- TLS, X.509 verification and certificate issuing: a handshake is an answer that names a peer and an ALPN choice.
- Credential reload: swapping credentials on success around foreign checks is easy next to the rest.
- yamux, tokio, DashMap and ArcSwap: only their contracts are used; the bound of 256 on the open-request channel only delays senders.
- `copy_bidirectional`, socket options, original destinations and listener binding: input and output. An acceptor that fails to bind is simply absent.
- Bytes moved: `bytes_total` is not equated with delivered bytes, since the inbound detection prefix is forwarded outside the counted copy.
- Handshake, policy, mux-stream and tunnel counters: each is one increment with nothing to conserve.
- AdmissionRuns.CompleteMeansDrained: does not speak of the relay tasks of inbound tunnel streams, which are spawned apart and not counted as active.
- Routing: the router under interleaving is modelled on values, not on shared objects, since its steps interleave; the loop in place is `OutboundRoutes`, where other calls act only while this one waits for the creation lock.
- RoutingBounds.HandshakesAmortise: for more than one tunnel, takes scans as uninterrupted, as if all loads were read at one moment; nothing is claimed of it otherwise.
- RoutingBounds.ConnectionsShareHandshakes: likewise for more than one tunnel.
- TunnelDrivers.TunnelDriver.Poll: a request or a departure during a poll is taken as before it; the loop looks at each request once per poll.
- Wrap-around of the 64-bit tunnel ids: ids are unbounded.
- Error message texts and rule descriptions: parse errors are told apart only by their being errors.
- `INTERLINK_ALLOW_ALL`, which turns the default decision to Allow at start-up, is only covered as `SetDefaultDecision`.
- Original destinations and the choice of the upstream: the handlers start from a target. What service discovery answers them is a parameter; `Discovery` models it.
- Protocol detection, the admin server, configuration, identity providers and benchmarks.

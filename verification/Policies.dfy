/** The authorisation policy engine. */
module Policies {
  import opened ByteStrings
  import opened SegmentGlobs
  import opened SpiffeIds

  datatype Decision = Allow | Deny(reason: string)

  datatype PolicyRule =
    PolicyRule(source: CompiledPattern, destination: CompiledPattern, decision: Decision, description: string)

  ghost predicate ValidRules(rules: seq<PolicyRule>) {
    forall i | 0 <= i < |rules| :: ValidPattern(rules[i].source) && ValidPattern(rules[i].destination)
  }

  ghost predicate Applies(rule: PolicyRule, source: SpiffeId, destination: SpiffeId) {
    Denotes(Text(rule.source), source) && Denotes(Text(rule.destination), destination)
  }

  /** The contents of an engine. */
  datatype Rules = Rules(byNamespace: map<Str, seq<PolicyRule>>, globals: seq<PolicyRule>, default: Decision)

  ghost predicate ValidAll(r: Rules) {
    && ValidRules(r.globals)
    && forall ns | ns in r.byNamespace :: ValidRules(r.byNamespace[ns])
  }

  function Filed(r: Rules, namespace: Str): seq<PolicyRule> {
    if namespace in r.byNamespace then r.byNamespace[namespace] else []
  }

  // --------------------------------------------------------------- first match

  /** The decision of the first rule that applies. */
  ghost function FirstMatch(rules: seq<PolicyRule>, source: SpiffeId, destination: SpiffeId): Option<Decision> {
    if rules == [] then None
    else if Applies(rules[0], source, destination) then Some(rules[0].decision)
    else FirstMatch(rules[1..], source, destination)
  }

  /** What `evaluate` decides: destination-namespace rules, then globals, then the default. */
  ghost function Verdict(r: Rules, source: SpiffeId, destination: SpiffeId): Decision {
    match FirstMatch(Filed(r, destination.namespace) + r.globals, source, destination)
    case Some(d) => d
    case None => r.default
  }

  lemma {:induction false} FirstMatchAppend(a: seq<PolicyRule>, b: seq<PolicyRule>, source: SpiffeId, destination: SpiffeId)
    ensures FirstMatch(a + b, source, destination) ==
            if FirstMatch(a, source, destination).Some? then FirstMatch(a, source, destination)
            else FirstMatch(b, source, destination)
  {
    if a == [] {
      assert a + b == b;
    } else {
      assert (a + b)[1..] == a[1..] + b;
      FirstMatchAppend(a[1..], b, source, destination);
    }
  }

  /** FirstMatch said by index: some applying rule with none applying before it. */
  lemma {:induction false} FirstMatchIff(rules: seq<PolicyRule>, source: SpiffeId, destination: SpiffeId, d: Decision)
    ensures FirstMatch(rules, source, destination) == Some(d) <==>
            exists i | 0 <= i < |rules| ::
              && Applies(rules[i], source, destination) && rules[i].decision == d
              && forall j | 0 <= j < i :: !Applies(rules[j], source, destination)
  {
    if rules != [] {
      FirstMatchIff(rules[1..], source, destination, d);
      if Applies(rules[0], source, destination) {
        assert rules[0].decision == d ==> FirstMatch(rules, source, destination) == Some(d);
      } else {
        if i :| 0 <= i < |rules[1..]| && Applies(rules[1..][i], source, destination) && rules[1..][i].decision == d
                && forall j | 0 <= j < i :: !Applies(rules[1..][j], source, destination)
        {
          FirstMatchShift(rules, source, destination, i);
        }
        if i :| 0 <= i < |rules| && Applies(rules[i], source, destination) && rules[i].decision == d
                && forall j | 0 <= j < i :: !Applies(rules[j], source, destination)
        {
          assert rules[1..][i - 1] == rules[i];
          assert forall j | 0 <= j < i - 1 :: rules[1..][j] == rules[j + 1];
        }
      }
    }
  }

  lemma FirstMatchShift(rules: seq<PolicyRule>, source: SpiffeId, destination: SpiffeId, i: nat)
    requires rules != [] && !Applies(rules[0], source, destination) && i < |rules[1..]|
    requires forall j | 0 <= j < i :: !Applies(rules[1..][j], source, destination)
    ensures rules[i + 1] == rules[1..][i] && forall j | 0 <= j < i + 1 :: !Applies(rules[j], source, destination)
  {
  }

  // -------------------------------------------------------------------- engine

  /** One scan of `evaluate`. */
  method Scan(rules: seq<PolicyRule>, source: SpiffeId, destination: SpiffeId) returns (r: Option<Decision>)
    requires ValidRules(rules)
    ensures r == FirstMatch(rules, source, destination)
  {
    assert rules[0..] == rules;
    for i := 0 to |rules|
      invariant FirstMatch(rules, source, destination) == FirstMatch(rules[i..], source, destination)
    {
      assert rules[i..][0] == rules[i] && rules[i..][1..] == rules[i + 1..];
      var s := MatchesCompiled(source, rules[i].source);
      if s {
        var d := MatchesCompiled(destination, rules[i].destination);
        if d {
          return Some(rules[i].decision);
        }
      }
    }
    r := None;
  }

  class PolicyEngine {
    var namespacePolicies: map<Str, seq<PolicyRule>>
    var globalPolicies: seq<PolicyRule>
    var defaultDecision: Decision

    ghost function Contents(): Rules
      reads this
    {
      Rules(namespacePolicies, globalPolicies, defaultDecision)
    }

    ghost predicate Valid()
      reads this
    {
      ValidAll(Contents())
    }

    /** `PolicyEngine::new`: default deny. */
    constructor ()
      ensures Valid() && Contents() == Rules(map[], [], Deny("no matching policy"))
    {
      namespacePolicies := map[];
      globalPolicies := [];
      defaultDecision := Deny("no matching policy");
    }

    /** `PolicyEngine::evaluate`. */
    method Evaluate(source: SpiffeId, destination: SpiffeId) returns (d: Decision)
      requires Valid()
      ensures d == Verdict(Contents(), source, destination)
    {
      ghost var own := Filed(Contents(), destination.namespace);
      FirstMatchAppend(own, globalPolicies, source, destination);
      if destination.namespace in namespacePolicies {
        var hit := Scan(namespacePolicies[destination.namespace], source, destination);
        if hit.Some? {
          return hit.value;
        }
      }
      var hit := Scan(globalPolicies, source, destination);
      d := if hit.Some? then hit.value else defaultDecision;
    }

    /** `PolicyEngine::add_namespace_rule`. */
    method AddNamespaceRule(namespace: Str, rule: PolicyRule)
      requires Valid() && ValidPattern(rule.source) && ValidPattern(rule.destination)
      modifies this
      ensures Valid() && Contents() == Amend(old(Contents()), AddRule(namespace, rule))
    {
      var rules := if namespace in namespacePolicies then namespacePolicies[namespace] else [];
      namespacePolicies := namespacePolicies[namespace := rules + [rule]];
    }

    /** `PolicyEngine::set_global_policies`. */
    method SetGlobalPolicies(rules: seq<PolicyRule>)
      requires Valid() && ValidRules(rules)
      modifies this
      ensures Valid() && Contents() == Amend(old(Contents()), ReplaceGlobals(rules))
    {
      globalPolicies := rules;
    }

    /** `PolicyEngine::set_default_decision`. */
    method SetDefaultDecision(decision: Decision)
      requires Valid()
      modifies this
      ensures Valid() && Contents() == Amend(old(Contents()), SetDefault(decision))
    {
      defaultDecision := decision;
    }
  }

  // ---------------------------------------------------------- runs of changes

  datatype Change =
    | AddRule(namespace: Str, rule: PolicyRule)
    | ReplaceGlobals(rules: seq<PolicyRule>)
    | SetDefault(decision: Decision)

  function Amend(r: Rules, c: Change): Rules {
    match c
    case AddRule(ns, rule) => r.(byNamespace := r.byNamespace[ns := Filed(r, ns) + [rule]])
    case ReplaceGlobals(rules) => r.(globals := rules)
    case SetDefault(d) => r.(default := d)
  }

  function AmendAll(r: Rules, cs: seq<Change>): Rules
    decreases |cs|
  {
    if cs == [] then r else AmendAll(Amend(r, cs[0]), cs[1..])
  }

  /** Rule `i` is the first of `rules` to apply. */
  ghost predicate FirstAt(rules: seq<PolicyRule>, i: nat, source: SpiffeId, destination: SpiffeId) {
    && i < |rules| && Applies(rules[i], source, destination)
    && forall j | 0 <= j < i :: !Applies(rules[j], source, destination)
  }

  ghost predicate NoneApplies(rules: seq<PolicyRule>, source: SpiffeId, destination: SpiffeId) {
    forall i | 0 <= i < |rules| :: !Applies(rules[i], source, destination)
  }

  lemma FirstAtDecides(rules: seq<PolicyRule>, i: nat, source: SpiffeId, destination: SpiffeId)
    requires FirstAt(rules, i, source, destination)
    ensures FirstMatch(rules, source, destination) == Some(rules[i].decision)
  {
    FirstMatchIff(rules, source, destination, rules[i].decision);
  }

  lemma {:induction false} NoneAppliesDecides(rules: seq<PolicyRule>, source: SpiffeId, destination: SpiffeId)
    ensures NoneApplies(rules, source, destination) <==> FirstMatch(rules, source, destination) == None
  {
    if rules != [] {
      NoneAppliesDecides(rules[1..], source, destination);
      assert forall i | 0 < i < |rules| :: rules[i] == rules[1..][i - 1];
      assert forall i | 0 <= i < |rules[1..]| :: rules[1..][i] == rules[i + 1];
    }
  }

  /** The order of evaluation, by index: the first applying rule of the destination's namespace; if none
      applies there, the first applying global rule; if none applies at all, the default. */
  lemma EvaluationOrder(r: Rules, source: SpiffeId, destination: SpiffeId, i: nat)
    ensures var filed := Filed(r, destination.namespace);
            && (FirstAt(filed, i, source, destination) ==> Verdict(r, source, destination) == filed[i].decision)
            && (NoneApplies(filed, source, destination) && FirstAt(r.globals, i, source, destination) ==>
                  Verdict(r, source, destination) == r.globals[i].decision)
            && (NoneApplies(filed, source, destination) && NoneApplies(r.globals, source, destination) ==>
                  Verdict(r, source, destination) == r.default)
  {
    var filed := Filed(r, destination.namespace);
    FirstMatchAppend(filed, r.globals, source, destination);
    NoneAppliesDecides(filed, source, destination);
    NoneAppliesDecides(r.globals, source, destination);
    if FirstAt(filed, i, source, destination) {
      FirstAtDecides(filed, i, source, destination);
    }
    if FirstAt(r.globals, i, source, destination) {
      FirstAtDecides(r.globals, i, source, destination);
    }
  }

  /** A rule added to the destination's namespace decides every pair it applies to and no rule there did. */
  lemma AddedRuleDecides(r: Rules, rule: PolicyRule, source: SpiffeId, destination: SpiffeId)
    requires NoneApplies(Filed(r, destination.namespace), source, destination) && Applies(rule, source, destination)
    ensures Verdict(Amend(r, AddRule(destination.namespace, rule)), source, destination) == rule.decision
  {
    var r' := Amend(r, AddRule(destination.namespace, rule));
    EvaluationOrder(r', source, destination, |Filed(r, destination.namespace)|);
  }

  /** New globals decide, in their order, exactly what the namespace's rules leave open. */
  lemma NewGlobalsDecide(r: Rules, rules: seq<PolicyRule>, source: SpiffeId, destination: SpiffeId, i: nat)
    requires NoneApplies(Filed(r, destination.namespace), source, destination)
    ensures var r' := Amend(r, ReplaceGlobals(rules));
            && (FirstAt(rules, i, source, destination) ==> Verdict(r', source, destination) == rules[i].decision)
            && (NoneApplies(rules, source, destination) ==> Verdict(r', source, destination) == r.default)
  {
    EvaluationOrder(Amend(r, ReplaceGlobals(rules)), source, destination, i);
  }

  /** A new default decides exactly what no rule does. */
  lemma NewDefaultDecides(r: Rules, d: Decision, source: SpiffeId, destination: SpiffeId)
    ensures Verdict(Amend(r, SetDefault(d)), source, destination) ==
            if NoneApplies(Filed(r, destination.namespace) + r.globals, source, destination) then d
            else Verdict(r, source, destination)
  {
    NoneAppliesDecides(Filed(r, destination.namespace) + r.globals, source, destination);
  }

  /** Rules are filed in the order they were added and never move or disappear. */
  lemma {:induction false} FiledOnlyGrows(r: Rules, cs: seq<Change>, ns: Str)
    ensures Filed(r, ns) <= Filed(AmendAll(r, cs), ns)
    decreases |cs|
  {
    if cs != [] {
      FiledOnlyGrows(Amend(r, cs[0]), cs[1..], ns);
    }
  }

  /** Once a rule of the destination's namespace has decided a pair, no sequence of changes
      alters that decision. */
  lemma NamespaceDecisionIsFinal(r: Rules, cs: seq<Change>, source: SpiffeId, destination: SpiffeId)
    requires FirstMatch(Filed(r, destination.namespace), source, destination).Some?
    ensures Verdict(AmendAll(r, cs), source, destination) == Verdict(r, source, destination)
  {
    var before, r' := Filed(r, destination.namespace), AmendAll(r, cs);
    var after := Filed(r', destination.namespace);
    FiledOnlyGrows(r, cs, destination.namespace);
    assert after == before + after[|before|..];
    FirstMatchAppend(before, after[|before|..], source, destination);
    FirstMatchAppend(before, r.globals, source, destination);
    FirstMatchAppend(after, r'.globals, source, destination);
  }

  /** The changes that can concern a destination in `ns`. */
  function Concerning(cs: seq<Change>, ns: Str): seq<Change> {
    if cs == [] then []
    else (if cs[0].AddRule? && cs[0].namespace != ns then [] else [cs[0]]) + Concerning(cs[1..], ns)
  }

  /** Two engines look alike from destinations in `ns`. */
  predicate SameFor(r: Rules, q: Rules, ns: Str) {
    Filed(r, ns) == Filed(q, ns) && r.globals == q.globals && r.default == q.default
  }

  lemma {:induction false} ConcerningSuffices(r: Rules, q: Rules, cs: seq<Change>, ns: Str)
    requires SameFor(r, q, ns)
    ensures SameFor(AmendAll(r, cs), AmendAll(q, Concerning(cs, ns)), ns)
    decreases |cs|
  {
    if cs != [] {
      var kept := Concerning(cs[1..], ns);
      if cs[0].AddRule? && cs[0].namespace != ns {
        assert Concerning(cs, ns) == kept;
        ConcerningSuffices(Amend(r, cs[0]), q, cs[1..], ns);
      } else {
        assert Concerning(cs, ns)[0] == cs[0] && Concerning(cs, ns)[1..] == kept;
        ConcerningSuffices(Amend(r, cs[0]), Amend(q, cs[0]), cs[1..], ns);
      }
    }
  }

  /** Rules filed under other namespaces never matter, whatever they say. */
  lemma OtherNamespacesNeverMatter(r: Rules, cs: seq<Change>, source: SpiffeId, destination: SpiffeId)
    ensures Verdict(AmendAll(r, cs), source, destination) ==
            Verdict(AmendAll(r, Concerning(cs, destination.namespace)), source, destination)
  {
    ConcerningSuffices(r, r, cs, destination.namespace);
  }

  // ------------------------------------------------------------- constructors

  /** `patterns::allow`; `None` where the source unwraps a parse error. */
  method AllowRule(from: Str, to: Str, description: string) returns (r: Option<PolicyRule>)
    ensures r.Some? <==> FromUri(from).Ok? && FromUri(to).Ok?
    ensures r.Some? ==>
              && ValidRules([r.value]) && r.value.decision == Allow
              && Text(r.value.source) == FromUri(from).value && Text(r.value.destination) == FromUri(to).value
  {
    var source := PatternFromUri(from);
    var destination := PatternFromUri(to);
    if source.Err? || destination.Err? {
      return None;
    }
    r := Some(PolicyRule(source.value, destination.value, Allow, description));
  }

  /** `patterns::allow_same_namespace`: applies exactly to pairs of the trust domain, up to its
      case, whose namespaces both match. */
  method AllowSameNamespace(trustDomain: Str, namespace: Str) returns (r: Option<PolicyRule>)
    ensures r.Some? <==> WellFormed(SpiffeId(trustDomain, namespace, [STAR]))
    ensures r.Some? ==>
              ValidRules([r.value]) && r.value.decision == Allow &&
              forall s, d :: Applies(r.value, s, d) <==>
                && s.trustDomain == Lower(trustDomain) == d.trustDomain
                && InGlob(namespace, s.namespace) && InGlob(namespace, d.namespace)
  {
    var id := SpiffeId(trustDomain, namespace, [STAR]);
    PrintThenParse(id);
    var uri := ToUri(id);
    r := AllowRule(uri, uri, "allow all traffic within the namespace");
    if r.Some? {
      forall s, d
        ensures Applies(r.value, s, d) <==>
                && s.trustDomain == Lower(trustDomain) == d.trustDomain
                && InGlob(namespace, s.namespace) && InGlob(namespace, d.namespace)
      {
        StarMatchesAll(s.serviceAccount);
        StarMatchesAll(d.serviceAccount);
      }
    }
  }

  /** `patterns::deny`: applies to every destination. */
  method DenyRule(source: Str, description: string) returns (r: Option<PolicyRule>)
    ensures r.Some? <==> FromUri(source).Ok?
    ensures r.Some? ==>
              ValidRules([r.value]) && r.value.decision == Deny("blocklisted source") &&
              forall s, d :: Applies(r.value, s, d) <==> Denotes(FromUri(source).value, s)
  {
    var p := PatternFromUri(source);
    if p.Err? {
      return None;
    }
    var any := PatternAny();
    r := Some(PolicyRule(p.value, any, Deny("blocklisted source"), description));
  }

  /** The daemon's policy at start-up: one global rule from its own identity to itself over
      default deny.  `None` is the panic of the unwrapped pattern. */
  method DaemonPolicy(identity: SpiffeId) returns (r: Option<Rules>)
    ensures r.Some? <==> WellFormed(identity)
    ensures r.Some? ==>
              forall s, d :: Verdict(r.value, s, d) == Allow <==>
                Denotes(identity.(trustDomain := Lower(identity.trustDomain)), s) &&
                Denotes(identity.(trustDomain := Lower(identity.trustDomain)), d)
  {
    PrintThenParse(identity);
    var engine := new PolicyEngine();
    var uri := ToUri(identity);
    var rule := AllowRule(uri, uri, "allow replicas of this workload identity");
    if rule.None? {
      return None;
    }
    engine.SetGlobalPolicies([rule.value]);
    r := Some(Rules(engine.namespacePolicies, engine.globalPolicies, engine.defaultDecision));
    forall s, d
      ensures Verdict(r.value, s, d) == Allow <==> Applies(rule.value, s, d)
    {
      SingleRule(r.value, rule.value, s, d);
    }
  }

  lemma SingleRule(r: Rules, rule: PolicyRule, s: SpiffeId, d: SpiffeId)
    requires r == Rules(map[], [rule], Deny("no matching policy")) && rule.decision == Allow
    ensures Verdict(r, s, d) == Allow <==> Applies(rule, s, d)
  {
    assert Filed(r, d.namespace) + r.globals == [rule];
    assert FirstMatch([rule][1..], s, d) == None;
    assert FirstMatch([rule], s, d) == if Applies(rule, s, d) then Some(Allow) else None;
  }

  /** For an identity that came out of the parser, the daemon's rule lets it talk to itself; it lets
      nothing else talk exactly when namespace and service account contain no star. */
  lemma DaemonRuleIff(uri: Str)
    requires FromUri(uri).Ok?
    ensures var id := FromUri(uri).value;
            && WellFormed(id) && id.(trustDomain := Lower(id.trustDomain)) == id
            && Denotes(id, id)
            && ((forall s, d :: Denotes(id, s) && Denotes(id, d) <==> s == d == id) <==>
                StarFree(id.namespace) && StarFree(id.serviceAccount))
  {
    ParseIsIdempotent(uri);
    var id := FromUri(uri).value;
    GlobIsReflexive(id.namespace);
    GlobIsReflexive(id.serviceAccount);
    OnlyMatchIff(id);
    if forall s, d :: Denotes(id, s) && Denotes(id, d) <==> s == d == id {
      forall other
        ensures Denotes(id, other) <==> other == id
      {
        assert Denotes(id, other) && Denotes(id, id) <==> other == id == id;
      }
    }
  }
}

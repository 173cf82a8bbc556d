/** When a start fails only for an endpoint conflict or an unstartable rule,
    rolling back always succeeds. */
module ManagerConflicts {
  import opened Wrappers
  import opened Rules
  import C = Collector
  import opened ManagerModel
  import opened ManagerInvariant
  import opened ManagerSteps
  import opened ManagerTransaction
  import opened ManagerRollback

  type Startable = RuntimeKey -> bool

  /** A start fails exactly when a live endpoint conflicts or the rule cannot be started at all. */
  ghost predicate ConflictNet(net: Net, startable: Startable)
  {
    forall n, live, key, e :: net.fails(n, live, key, e) <==> (!startable(key) || exists x :: x in live && Conflicts(x, e))
  }

  predicate Compatible(a: Rule, b: Rule)
  {
    forall e, f :: e in EndpointsOf(KeyOf(a)) && f in EndpointsOf(KeyOf(b)) ==> !Conflicts(e, f)
  }

  /** Startable rules whose endpoints do not conflict: a set that can run together. */
  predicate Coexist(rules: RuleMap, startable: Startable)
  {
    (forall id :: id in rules ==> startable(KeyOf(rules[id]))) &&
    (forall a, b :: a in rules && b in rules && a != b ==> Compatible(rules[a], rules[b]))
  }

  predicate FitsWith(rules: RuleMap, rule: Rule, startable: Startable)
  {
    startable(KeyOf(rule)) && forall id :: id in rules && id != rule.ruleId ==> Compatible(rules[id], rule)
  }

  lemma CompatibleSymmetric(a: Rule, b: Rule)
    ensures Compatible(a, b) ==> Compatible(b, a)
  {
    hide KeyOf, EndpointsOf;
    if Compatible(a, b) {
      forall e, f | e in EndpointsOf(KeyOf(b)) && f in EndpointsOf(KeyOf(a)) ensures !Conflicts(e, f) {
        assert !Conflicts(f, e);
      }
    }
  }

  lemma CoexistExtended(rules: RuleMap, rule: Rule, startable: Startable)
    requires Coexist(rules - {rule.ruleId}, startable)
    ensures FitsWith(rules, rule, startable) <==> Coexist(rules[rule.ruleId := rule], startable)
  {
    hide KeyOf, Compatible;
    var id := rule.ruleId;
    var extended := rules[id := rule];
    if FitsWith(rules, rule, startable) {
      forall a, b | a in extended && b in extended && a != b ensures Compatible(extended[a], extended[b]) {
        if a == id { CompatibleSymmetric(rules[b], rule); }
        else if b != id { assert a in rules - {id} && b in rules - {id}; }
      }
      forall a | a in extended ensures startable(KeyOf(extended[a])) {
        if a != id { assert a in rules - {id}; }
      }
    }
    if Coexist(extended, startable) {
      assert id in extended && extended[id] == rule;
      forall a | a in rules && a != id ensures Compatible(rules[a], rule) {
        assert a in extended && id in extended && extended[a] == rules[a];
      }
    }
  }

  lemma CoexistSubset(rules: RuleMap, ids: set<string>, startable: Startable)
    requires Coexist(rules, startable)
    ensures Coexist(rules - ids, startable)
  {
    hide KeyOf, Compatible;
  }

  // ---------- Starts are decided by what runs ----------

  /** The endpoints listened on are those of the running rules. */
  lemma LiveEndpointsAre(s: State, x: Endpoint)
    requires Inv(s)
    ensures x in LiveEndpoints(s) <==> exists id :: id in s.running && x in EndpointsOf(KeyOf(s.running[id].rule))
  {
    hide Runnable, KeyOf, EndpointsOf, C.Ok;
    if x in LiveEndpoints(s) {
      var r :| r in s.live && r.endpoint == x;
      assert Owned(s, r);
      var id :| id in s.running && r in s.running[id].runners;
      assert EntryOk(s, id);
    }
    if id :| id in s.running && x in EndpointsOf(KeyOf(s.running[id].rule)) {
      assert EntryOk(s, id);
      var i :| 0 <= i < |s.running[id].runners| && s.running[id].runners[i].endpoint == x;
      assert s.running[id].runners[i] in ToSet(s.running[id].runners);
    }
  }

  predicate Free(s: State, e: Endpoint)
  {
    forall x :: x in LiveEndpoints(s) ==> !Conflicts(x, e)
  }

  lemma {:induction false} StartDecided(net: Net, s: State, key: RuntimeKey, runners: seq<Runner>, startable: Startable)
    requires ConflictNet(net, startable)
    requires forall i, j :: 0 <= i < j < |runners| ==> !Conflicts(runners[i].endpoint, runners[j].endpoint)
    ensures StartRunners(net, s, key, runners).1 <==>
      (runners == [] || startable(key)) && forall i :: 0 <= i < |runners| ==> Free(s, runners[i].endpoint)
    decreases |runners|
  {
    if runners != [] {
      var first, rest := runners[0], runners[1..];
      var t := Tick(net, s);
      var t1 := t.(live := t.live + {first});
      assert LiveEndpoints(t1) == LiveEndpoints(s) + {first.endpoint};
      assert net.fails(s.ticks, LiveEndpoints(s), key, first.endpoint) <==> !(startable(key) && Free(s, first.endpoint));
      StartDecided(net, t1, key, rest, startable);
      forall i | 0 <= i < |rest| ensures Free(t1, rest[i].endpoint) <==> Free(s, rest[i].endpoint) {
        assert rest[i] == runners[i + 1] && !Conflicts(first.endpoint, rest[i].endpoint);
      }
      assert forall i :: 0 < i < |runners| ==> runners[i] == rest[i - 1];
    }
  }

  lemma FreeMeansCompatible(s: State, rule: Rule)
    requires Inv(s) && rule.ruleId !in s.running
    ensures (forall e :: e in EndpointsOf(KeyOf(rule)) ==> Free(s, e)) <==>
            (forall id :: id in RulesOf(s) && id != rule.ruleId ==> Compatible(RulesOf(s)[id], rule))
  {
    hide Inv, KeyOf, EndpointsOf, Conflicts, LiveEndpoints;
    forall x ensures x in LiveEndpoints(s) <==> exists id :: id in s.running && x in EndpointsOf(KeyOf(s.running[id].rule)) {
      LiveEndpointsAre(s, x);
    }
    if forall e :: e in EndpointsOf(KeyOf(rule)) ==> Free(s, e) {
      forall id | id in RulesOf(s) && id != rule.ruleId ensures Compatible(RulesOf(s)[id], rule) {
        forall e, f | e in EndpointsOf(KeyOf(RulesOf(s)[id])) && f in EndpointsOf(KeyOf(rule)) ensures !Conflicts(e, f) {
          assert Free(s, f) && e in LiveEndpoints(s);
        }
      }
    }
    if forall id :: id in RulesOf(s) && id != rule.ruleId ==> Compatible(RulesOf(s)[id], rule) {
      forall e, x | e in EndpointsOf(KeyOf(rule)) && x in LiveEndpoints(s) ensures !Conflicts(x, e) {
        var id :| id in s.running && x in EndpointsOf(KeyOf(s.running[id].rule));
        assert Compatible(RulesOf(s)[id], rule);
      }
    }
  }

  lemma OwnEndpoints(rule: Rule)
    requires Runnable(rule)
    ensures var es := EndpointsOf(KeyOf(rule));
      es != [] && forall i, j :: 0 <= i < j < |es| ==> !Conflicts(es[i], es[j])
  {
  }

  /** Launching succeeds exactly when the rule is startable and fits with what runs. */
  lemma LaunchDecided(net: Net, s: State, s0: State, rule: Rule, runners: seq<Runner>, startable: Startable)
    requires ConflictNet(net, startable) && Inv(s0) && Runnable(rule) && rule.ruleId !in s0.running
    requires |runners| == |EndpointsOf(KeyOf(rule))|
    requires forall i :: 0 <= i < |runners| ==> runners[i].endpoint == EndpointsOf(KeyOf(rule))[i]
    ensures StartRunners(net, s0, KeyOf(rule), runners).1 <==> FitsWith(RulesOf(s0), rule, startable)
  {
    hide Inv, KeyOf, EndpointsOf, Conflicts, Compatible, ConflictNet, StartRunners, Free;
    OwnEndpoints(rule);
    StartDecided(net, s0, KeyOf(rule), runners, startable);
    FreeMeansCompatible(s0, rule);
    assert (forall e :: e in EndpointsOf(KeyOf(rule)) ==> Free(s0, e)) <==> (forall i :: 0 <= i < |runners| ==> Free(s0, runners[i].endpoint));
  }

  // ---------- Operations, decided ----------

  lemma LaunchFits(net: Net, s: State, rule: Rule, startable: Startable)
    requires ConflictNet(net, startable) && Inv(s) && Runnable(rule) && rule.ruleId !in s.running
    ensures Launch(net, s, rule).1 <==> FitsWith(RulesOf(s), rule, startable)
  {
    hide Inv, Runnable, KeyOf, EndpointsOf, ConflictNet, StartRunners, FitsWith;
    AfterBuildTouches(s, rule, false);
    JournalSameRunning(s, AfterBuild(s, rule), []);
    LaunchDecided(net, s, AfterBuild(s, rule), rule, NewRunners(s, rule), startable);
  }

  lemma StartFits(net: Net, s: State, rule: Rule, startable: Startable)
    requires ConflictNet(net, startable) && Inv(s) && Runnable(rule) && rule.ruleId !in s.running
    ensures StartRule(net, s, rule).1 <==> FitsWith(RulesOf(s), rule, startable)
  {
    hide Inv, Runnable, KeyOf, ConflictNet, Launch, FitsWith, Valid, Standardize;
    RunnableIsStandard(rule);
    EnsureMetadataTouches(s, rule, rule.ruleId, false);
    JournalSameRunning(s, EnsureMetadata(s, rule), []);
    LaunchFits(net, EnsureMetadata(s, rule), rule, startable);
  }

  lemma FitsIgnoresItself(rules: RuleMap, rule: Rule, startable: Startable)
    ensures FitsWith(rules - {rule.ruleId}, rule, startable) <==> FitsWith(rules, rule, startable)
  {
    hide KeyOf, Compatible;
    var rest := rules - {rule.ruleId};
    assert forall id :: id in rules && id != rule.ruleId ==> id in rest && rest[id] == rules[id];
  }

  lemma StoppedRules(s: State, rule: Rule)
    requires Inv(s)
    ensures RulesOf(StopForRestart(s, rule)) == RulesOf(s) - {rule.ruleId}
  {
    hide Inv, C.Grows;
    StopForRestartFacts(s, rule, false);
  }

  lemma RestartStarts(net: Net, s: State, rule: Rule, startable: Startable)
    requires ConflictNet(net, startable) && Inv(s) && Runnable(rule)
    ensures StartRunners(net, StopForRestart(s, rule), KeyOf(rule), NewRunners(s, rule)).1 <==> FitsWith(RulesOf(s), rule, startable)
  {
    hide Inv, Runnable, KeyOf, EndpointsOf, ConflictNet, StartRunners, FitsWith, StopForRestart, C.Grows;
    StopForRestartFacts(s, rule, false);
    StoppedRules(s, rule);
    FitsIgnoresItself(RulesOf(s), rule, startable);
    LaunchDecided(net, s, StopForRestart(s, rule), rule, NewRunners(s, rule), startable);
  }

  lemma RestoreAlwaysFits(net: Net, s: State, previous: Rule, startable: Startable)
    requires ConflictNet(net, startable) && Inv(s) && Runnable(previous) && previous.ruleId !in s.running
    requires FitsWith(RulesOf(s), previous, startable)
    ensures RestoreAfterFailure(net, s, Some(previous)).1 == Restored
  {
    hide Inv, Runnable, KeyOf, ConflictNet, Launch, FitsWith;
    EnsureMetadataTouches(s, previous, previous.ruleId, false);
    JournalSameRunning(s, EnsureMetadata(s, previous), []);
    LaunchFits(net, EnsureMetadata(s, previous), previous, startable);
  }

  /** A restart works exactly when the new rule fits; otherwise the old rule comes back. */
  lemma RestartFits(net: Net, s: State, rule: Rule, startable: Startable)
    requires ConflictNet(net, startable) && Inv(s) && Runnable(rule) && Coexist(RulesOf(s), startable)
    ensures RestartRule(net, s, rule).1 == Restarted <==> FitsWith(RulesOf(s), rule, startable)
    ensures RestartRule(net, s, rule).1 != Lost
  {
    hide Inv, Runnable, KeyOf, ConflictNet, FitsWith, Valid, Standardize, StartRunners, StopForRestart, C.Grows, Coexist, EndpointsOf, NewRunners, RunnersOk, FreshRunners, C.Ok, Launch, Quiet;
    RunnableIsStandard(rule);
    RestartStarts(net, s, rule, startable);
    var s0 := StopForRestart(s, rule);
    var runners := NewRunners(s, rule);
    var (s1, ok) := StartRunners(net, s0, KeyOf(rule), runners);
    if !ok && rule.ruleId in s.running {
      var previous := s.running[rule.ruleId].rule;
      FailedRestartState(net, s, rule);
      RunningHaveCounters(s);
      OldRuleFits(RulesOf(s), rule.ruleId, startable);
      FitsIgnoresItself(RulesOf(s), previous, startable);
      RestoreAlwaysFits(net, s1, previous, startable);
    }
  }

  lemma OldRuleFits(rules: RuleMap, id: string, startable: Startable)
    requires Coexist(rules, startable) && id in rules && rules[id].ruleId == id
    ensures FitsWith(rules, rules[id], startable)
  {
    hide KeyOf, Compatible;
  }

  lemma FailedRestartState(net: Net, s: State, rule: Rule)
    requires Inv(s) && Runnable(rule)
    ensures var (s1, ok) := StartRunners(net, StopForRestart(s, rule), KeyOf(rule), NewRunners(s, rule));
      !ok ==> Inv(s1) && rule.ruleId !in s1.running && RulesOf(s1) == RulesOf(s) - {rule.ruleId}
  {
    hide Inv, C.Ok, C.Grows, Runnable, KeyOf, EndpointsOf, NewRunners, StartRunners, StopForRestart, RunnersOk, FreshRunners;
    AnyNet(net);
    var s0 := StopForRestart(s, rule);
    StopForRestartFacts(s, rule, false);
    StoppedRules(s, rule);
    NewRunnersFacts(s, rule);
    SameCounterAfterBuild(s, rule);
    StillFresh(s, s0, NewRunners(s, rule));
    LaunchSet(net, s, s0, rule, NewRunners(s, rule), false);
    JournalSameRunning(s0, StartRunners(net, s0, KeyOf(rule), NewRunners(s, rule)).0, []);
  }

  // ---------- Undoing always works ----------

  /** Every state the journal passes through on its way back can run. */
  predicate ChainCoexists(rules: RuleMap, journal: seq<Undo>, startable: Startable)
    decreases |journal|
  {
    Coexist(rules, startable) &&
    (journal != [] ==> ChainCoexists(Revert(rules, journal[|journal| - 1]), journal[..|journal| - 1], startable))
  }

  lemma UndoWorks(net: Net, s: State, u: Undo, startable: Startable)
    requires ConflictNet(net, startable) && Inv(s) && StepOk(s, u)
    requires Coexist(RulesOf(s), startable) && Coexist(Revert(RulesOf(s), u), startable)
    ensures RunUndo(net, s, u).1
  {
    hide Inv, Runnable, KeyOf, ConflictNet, Coexist, FitsWith, StartRule, RestartRule, StopRule, UpdateRule;
    if !u.StopAgain? {
      var p := u.previous;
      CoexistSubset(RulesOf(s), {p.ruleId}, startable);
      CoexistExtended(RulesOf(s), p, startable);
      match u
      case RestartBack(_) => RestartFits(net, s, p, startable);
      case StartAgain(_) => StartFits(net, s, p, startable);
      case _ =>
    }
  }

  /** Replaying the journal backwards never fails: each undo meets the
      endpoints its rule was running with. */
  lemma {:induction false} UndoAllWorks(net: Net, s: State, journal: seq<Undo>, startable: Startable)
    requires ConflictNet(net, startable) && Inv(s) && JournalOk(s, journal)
    requires ChainCoexists(RulesOf(s), journal, startable)
    ensures UndoAll(net, s, journal).1
    decreases |journal|
  {
    hide Inv, ConflictNet, Coexist, RunUndo, StepOk, Revert, IsUndone, C.Grows;
    if journal != [] {
      var last := |journal| - 1;
      var u, rest := journal[last], journal[..last];
      var s1 := RunUndo(net, s, u).0;
      ChainHead(RulesOf(s), journal, startable);
      UndoWorks(net, s, u, startable);
      AnyNet(net);
      UndoFacts(net, s, u, false);
      UndoneIsReverted(s, s1, u);
      assert !Mentions(rest, UndoId(u));
      JournalFramed(s, s1, UndoId(u), rest);
      UndoAllWorks(net, s1, rest, startable);
    }
  }

  lemma ChainHead(rules: RuleMap, journal: seq<Undo>, startable: Startable)
    requires ChainCoexists(rules, journal, startable)
    ensures Coexist(rules, startable)
    ensures journal != [] ==>
      ChainCoexists(Revert(rules, journal[|journal| - 1]), journal[..|journal| - 1], startable) &&
      Coexist(Revert(rules, journal[|journal| - 1]), startable)
  {
    hide Coexist;
  }

  lemma ChainExtended(rules: RuleMap, journal: seq<Undo>, undo: Option<Undo>, rules': RuleMap, startable: Startable)
    requires ChainCoexists(rules, journal, startable) && Coexist(rules', startable)
    requires undo.None? ==> rules' == rules
    requires undo.Some? ==> Revert(rules', undo.value) == rules
    ensures ChainCoexists(rules', Journaled(journal, undo), startable)
  {
    hide Coexist, Revert;
    if undo.Some? { assert Journaled(journal, undo)[..|journal|] == journal; }
  }

  // ---------- Applying forward ----------

  lemma SameRulesUpdated(s: State, rule: Rule, startable: Startable)
    requires Inv(s) && Runnable(rule) && rule.ruleId in s.running && RuntimeEqual(s.running[rule.ruleId].rule, rule)
    requires Coexist(RulesOf(s), startable)
    ensures Coexist(RulesOf(s)[rule.ruleId := rule], startable)
  {
    hide Inv, Runnable, KeyOf, RuntimeEqual, Coexist, Compatible;
    RunningHaveCounters(s);
    var current := s.running[rule.ruleId].rule;
    RunnableKeys(current, rule);
    OldRuleFits(RulesOf(s), rule.ruleId, startable);
    FitsLikeItsKey(RulesOf(s), current, rule, startable);
    CoexistSubset(RulesOf(s), {rule.ruleId}, startable);
    CoexistExtended(RulesOf(s), rule, startable);
  }

  lemma FitsLikeItsKey(rules: RuleMap, a: Rule, b: Rule, startable: Startable)
    requires a.ruleId == b.ruleId && KeyOf(a) == KeyOf(b) && FitsWith(rules, a, startable)
    ensures FitsWith(rules, b, startable)
  {
    hide KeyOf, EndpointsOf;
    forall id | id in rules && id != b.ruleId ensures Compatible(rules[id], b) { assert Compatible(rules[id], a); }
  }

  /** Applying one rule keeps the running set able to coexist, and never loses a rule. */
  lemma ApplyOneCoexists(net: Net, s: State, rule: Rule, startable: Startable)
    requires ConflictNet(net, startable) && Inv(s) && Standard(rule) && Valid(rule) && Coexist(RulesOf(s), startable)
    ensures var a := ApplyOne(net, s, rule);
      && (a.Applied? ==> Coexist(RulesOf(a.state), startable))
      && (a.Broken? ==> !a.how.Lost?)
  {
    hide Inv, Runnable, KeyOf, RuntimeEqual, ConflictNet, Coexist, FitsWith, Valid, Standard, StartRule, RestartRule, StopRule, UpdateRule, C.Grows, StepOk, C.EnsureMetadata;
    var id := rule.ruleId;
    var a := ApplyOne(net, s, rule);
    ValidId(rule);
    AnyNet(net);
    ApplyOneFacts(net, s, rule, false);
    CoexistSubset(RulesOf(s), {id}, startable);
    OtherRulesKept(s, a.state, id);
    if !rule.enabled {
      assert RulesOf(a.state) == RulesOf(s) - {id};
    } else {
      CoexistExtended(RulesOf(s), rule, startable);
      if a.Applied? { AppliedRules(s, a.state, rule); }
      if id !in s.running {
        StartFits(net, s, rule, startable);
      } else if RuntimeEqual(s.running[id].rule, rule) {
        SameRulesUpdated(s, rule, startable);
      } else {
        RestartFits(net, s, rule, startable);
      }
    }
  }

  lemma AppliedRules(s: State, s': State, rule: Rule)
    requires s'.running - {rule.ruleId} == s.running - {rule.ruleId}
    requires rule.ruleId in s'.running && s'.running[rule.ruleId].rule == rule
    ensures RulesOf(s') == RulesOf(s)[rule.ruleId := rule]
  {
    UndoneIsReverted(s, s', RestartBack(rule));
  }
}

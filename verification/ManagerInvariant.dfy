/** The runtime invariant: live runners are exactly those owned by the running
    map, each bound to the counter the collector reads for its rule. */
module ManagerInvariant {
  import opened Wrappers
  import opened Text
  import opened Rules
  import C = Collector
  import opened ManagerModel

  /** A rule that can be in the running map. */
  predicate Runnable(rule: Rule) { Standard(rule) && Valid(rule) && rule.enabled }

  predicate RunnersOk(m: Managed, counter: C.Ref, nextUid: nat)
  {
    var endpoints := EndpointsOf(KeyOf(m.rule));
    |m.runners| == |endpoints| &&
    (forall i :: 0 <= i < |m.runners| ==>
      m.runners[i].endpoint == endpoints[i] && m.runners[i].counter == counter && m.runners[i].uid < nextUid) &&
    (forall i, j :: 0 <= i < j < |m.runners| ==> m.runners[i].uid != m.runners[j].uid)
  }

  predicate EntryOk(s: State, id: string)
    requires id in s.running
  {
    var m := s.running[id];
    && m.rule.ruleId == id && Runnable(m.rule)
    && id in s.collector.counters
    && RunnersOk(m, s.collector.counters[id], s.nextUid)
    && ToSet(m.runners) <= s.live
  }

  predicate Owned(s: State, r: Runner)
  {
    exists id :: id in s.running && r in s.running[id].runners
  }

  predicate Inv(s: State)
  {
    C.Ok(s.collector) &&
    (forall id :: id in s.running ==> EntryOk(s, id)) &&
    (forall r :: r in s.live ==> Owned(s, r))
  }

  /** `s'` differs from `s` only in what concerns rule `id`, and lost no count. */
  predicate Touches(s: State, s': State, id: string, quiet: bool)
  {
    Inv(s') && s'.running - {id} == s.running - {id} && s.nextUid <= s'.nextUid &&
    C.Grows(s.collector, s'.collector, quiet)
  }

  ghost predicate Quiet(net: Net, quiet: bool)
  {
    quiet ==> forall n :: C.Silent(net.traffic(n))
  }

  lemma AnyNet(net: Net)
    ensures Quiet(net, false)
  {
  }

  /** Time passing keeps the runtime and only adds to counts. */
  lemma TickFacts(net: Net, s: State, quiet: bool)
    requires Inv(s) && Quiet(net, quiet)
    ensures var s' := Tick(net, s);
      && Inv(s') && s'.running == s.running && s'.live == s.live && s'.nextUid == s.nextUid
      && s'.collector.counters == s.collector.counters && C.Grows(s.collector, s'.collector, quiet)
  {
    hide Runnable, KeyOf, EndpointsOf, C.Grows, C.Forward, C.Silent;
    assert quiet ==> C.Silent(net.traffic(s.ticks));
    C.ForwardFacts(s.collector, Writers(s), net.traffic(s.ticks), quiet);
    SameRuntime(s, Tick(net, s));
  }

  lemma InSet(runners: seq<Runner>, r: Runner)
    ensures r in ToSet(runners) <==> r in runners
  {
  }

  /** Every running rule's counter is still the same object in `c`. */
  predicate KeepsCounters(s: State, c: C.State)
  {
    forall id :: id in s.running ==>
      id in s.collector.counters && id in c.counters && c.counters[id] == s.collector.counters[id]
  }

  /** Whatever keeps the running map, the live runners and their counters keeps the invariant. */
  lemma SameRuntime(s: State, s': State)
    requires Inv(s) && s'.running == s.running && s'.live == s.live && s.nextUid <= s'.nextUid
    requires C.Ok(s'.collector) && KeepsCounters(s, s'.collector)
    ensures Inv(s')
  {
    forall id | id in s'.running ensures EntryOk(s', id) { assert EntryOk(s, id); }
    forall r | r in s'.live ensures Owned(s', r) {
      assert Owned(s, r);
      var id :| id in s.running && r in s.running[id].runners;
      assert id in s'.running && r in s'.running[id].runners;
    }
  }

  lemma RunningHaveCounters(s: State)
    requires Inv(s)
    ensures forall id :: id in s.running ==> id in s.collector.counters && s.running[id].rule.ruleId == id && Runnable(s.running[id].rule)
  {
    forall id | id in s.running ensures EntryOk(s, id) {}
  }

  lemma TouchesTransitive(s: State, s1: State, s2: State, id: string, quiet: bool)
    requires Touches(s, s1, id, quiet) && Touches(s1, s2, id, quiet)
    ensures Touches(s, s2, id, quiet)
  {
    C.GrowsTransitive(s.collector, s1.collector, s2.collector, quiet);
  }

  lemma EnsureMetadataTouches(s: State, rule: Rule, id: string, quiet: bool)
    requires Inv(s)
    ensures var s' := EnsureMetadata(s, rule);
      Touches(s, s', id, quiet) && s'.running == s.running && s'.live == s.live && s'.nextUid == s.nextUid
  {
    C.EnsureMetadataFacts(s.collector, rule);
    C.GetCounterFacts(s.collector, rule.ruleId);
    RunningHaveCounters(s);
    SameRuntime(s, EnsureMetadata(s, rule));
  }

  lemma SetConnsTouches(s: State, id: string, value: int, quiet: bool)
    requires Inv(s)
    ensures Touches(s, s.(collector := C.SetConns(s.collector, id, value)), id, quiet)
  {
    C.SetConnsFacts(s.collector, id, value);
    C.GetCounterFacts(s.collector, id);
    RunningHaveCounters(s);
    SameRuntime(s, s.(collector := C.SetConns(s.collector, id, value)));
  }

  // ---------- Stopping ----------

  /** No runner belongs to two rules. */
  lemma RunnersDisjoint(s: State, id: string, k: string)
    requires Inv(s) && id in s.running && k in s.running && id != k
    ensures ToSet(s.running[id].runners) !! ToSet(s.running[k].runners)
  {
    hide Runnable, EndpointsOf, KeyOf, Standardize;
    assert EntryOk(s, id) && EntryOk(s, k);
    assert s.collector.counters[id] != s.collector.counters[k];
  }

  lemma DetachEntry(s: State, id: string, k: string)
    requires Inv(s) && k in s.running && k != id
    ensures EntryOk(Detach(s, id), k)
  {
    hide Runnable, RunnersOk, KeyOf, EndpointsOf, Standardize;
    assert EntryOk(s, k);
    if id in s.running { RunnersDisjoint(s, id, k); }
  }

  lemma DetachOwned(s: State, id: string, r: Runner)
    requires Inv(s) && r in Detach(s, id).live
    ensures Owned(Detach(s, id), r)
  {
    hide EntryOk, C.Ok;
    assert Owned(s, r);
    var k :| k in s.running && r in s.running[k].runners;
    if k == id { InSet(s.running[id].runners, r); }
    assert k in Detach(s, id).running;
  }

  lemma DetachInv(s: State, id: string)
    requires Inv(s)
    ensures Inv(Detach(s, id))
  {
    var s' := Detach(s, id);
    assert C.Ok(s'.collector);
    forall k | k in s'.running ensures EntryOk(s', k) { DetachEntry(s, id, k); }
    forall r | r in s'.live ensures Owned(s', r) { DetachOwned(s, id, r); }
  }

  lemma DetachTouches(s: State, id: string, quiet: bool)
    requires Inv(s)
    ensures var s' := Detach(s, id);
      Touches(s, s', id, quiet) && s'.running == s.running - {id} && s'.collector == s.collector && s'.nextUid == s.nextUid
  {
    hide Inv;
    DetachInv(s, id);
  }

  lemma StopTouches(s: State, id: string, quiet: bool)
    requires Inv(s) && Trimmed(id) && id != ""
    ensures var s' := StopRule(s, id);
      Touches(s, s', id, quiet) && s'.running == s.running - {id} && s'.live == Detach(s, id).live && id in s'.collector.counters
  {
    TrimSpaceTrims(id);
    DetachTouches(s, id, quiet);
    SetConnsTouches(Detach(s, id), id, 0, quiet);
    C.SetConnsFacts(s.collector, id, 0);
    C.GetCounterFacts(s.collector, id);
    TouchesTransitive(s, Detach(s, id), StopRule(s, id), id, quiet);
  }

  // ---------- Starting ----------

  predicate FreshRunners(s: State, runners: seq<Runner>)
  {
    (forall i :: 0 <= i < |runners| ==> runners[i] !in s.live) &&
    (forall i, j :: 0 <= i < j < |runners| ==> runners[i] != runners[j])
  }

  lemma ToSetCons(runners: seq<Runner>)
    requires runners != []
    ensures ToSet(runners) == {runners[0]} + ToSet(runners[1..])
  {
    forall r | r in ToSet(runners) ensures r == runners[0] || r in ToSet(runners[1..]) {
      var i :| 0 <= i < |runners| && runners[i] == r;
      if i > 0 { assert runners[1..][i - 1] == r; }
    }
    forall r | r in ToSet(runners[1..]) ensures r in ToSet(runners) {
      var i :| 0 <= i < |runners| - 1 && runners[1..][i] == r;
      assert runners[i + 1] == r;
    }
  }

  /** A start set is all or nothing, and touches neither the running map nor any binding. */
  lemma {:induction false} StartRunnersFacts(net: Net, s: State, key: RuntimeKey, runners: seq<Runner>, quiet: bool)
    requires C.Ok(s.collector) && FreshRunners(s, runners) && Quiet(net, quiet)
    ensures var (s', ok) := StartRunners(net, s, key, runners);
      && s'.running == s.running && s'.nextUid == s.nextUid
      && s'.live == (if ok then s.live + ToSet(runners) else s.live)
      && C.Ok(s'.collector) && s'.collector.counters == s.collector.counters
      && C.Grows(s.collector, s'.collector, quiet)
    decreases |runners|
  {
    if runners != [] {
      var t := Tick(net, s);
      C.ForwardFacts(s.collector, Writers(s), net.traffic(s.ticks), quiet);
      if !net.fails(s.ticks, LiveEndpoints(s), key, runners[0].endpoint) {
        var t1 := t.(live := t.live + {runners[0]});
        StartRunnersFacts(net, t1, key, runners[1..], quiet);
        ToSetCons(runners);
        C.GrowsTransitive(s.collector, t1.collector, StartRunners(net, t1, key, runners[1..]).0.collector, quiet);
      }
    }
  }

  lemma LiveUidsOld(s: State, r: Runner)
    requires Inv(s) && r in s.live
    ensures r.uid < s.nextUid
  {
    assert Owned(s, r);
    var id :| id in s.running && r in s.running[id].runners;
    assert EntryOk(s, id);
  }

  /** The runners built for a rule are new and bound to the counter the collector reads. */
  lemma NewRunnersFacts(s: State, rule: Rule)
    requires Inv(s)
    ensures var c := C.GetCounter(s.collector, rule.ruleId);
      RunnersOk(Managed(rule, NewRunners(s, rule)), c.counters[rule.ruleId], AfterBuild(s, rule).nextUid)
    ensures FreshRunners(s, NewRunners(s, rule))
  {
    forall r | r in s.live ensures r.uid < s.nextUid { LiveUidsOld(s, r); }
  }

  lemma AfterBuildTouches(s: State, rule: Rule, quiet: bool)
    requires Inv(s)
    ensures Touches(s, AfterBuild(s, rule), rule.ruleId, quiet)
  {
    C.GetCounterFacts(s.collector, rule.ruleId);
    RunningHaveCounters(s);
    SameRuntime(s, AfterBuild(s, rule));
  }

  /** `s1` is `s` with `runners` started for `rule`, which is not running, and bound to its counter. */
  predicate Started(s: State, s1: State, rule: Rule, runners: seq<Runner>)
  {
    && rule.ruleId !in s.running
    && s1.running == s.running && s1.live == s.live + ToSet(runners) && s.nextUid <= s1.nextUid
    && C.Ok(s1.collector) && rule.ruleId in s1.collector.counters
    && KeepsCounters(s, s1.collector)
    && RunnersOk(Managed(rule, runners), s1.collector.counters[rule.ruleId], s1.nextUid)
  }

  function Registered(s1: State, rule: Rule, runners: seq<Runner>): State
  {
    s1.(running := s1.running[rule.ruleId := Managed(rule, runners)])
  }

  lemma RegisteredEntry(s: State, s1: State, rule: Rule, runners: seq<Runner>, k: string)
    requires Inv(s) && Runnable(rule) && Started(s, s1, rule, runners) && k in Registered(s1, rule, runners).running
    ensures EntryOk(Registered(s1, rule, runners), k)
  {
    if k != rule.ruleId { assert EntryOk(s, k); }
  }

  lemma RegisteredOwned(s: State, s1: State, rule: Rule, runners: seq<Runner>, r: Runner)
    requires rule.ruleId !in s.running && s1.running == s.running && s1.live == s.live + ToSet(runners)
    requires r in s1.live && (r in s.live ==> Owned(s, r))
    ensures Owned(Registered(s1, rule, runners), r)
  {
    var s' := Registered(s1, rule, runners);
    if r in s.live {
      var k :| k in s.running && r in s.running[k].runners;
      assert k in s'.running && r in s'.running[k].runners;
    } else {
      InSet(runners, r);
      assert rule.ruleId in s'.running && r in s'.running[rule.ruleId].runners;
    }
  }

  /** Registering runners that were started for a rule that is not running. */
  lemma RegisterInv(s: State, s1: State, rule: Rule, runners: seq<Runner>)
    requires Inv(s) && Runnable(rule) && Started(s, s1, rule, runners)
    ensures Inv(Registered(s1, rule, runners))
  {
    var s' := Registered(s1, rule, runners);
    forall k | k in s'.running ensures EntryOk(s', k) { RegisteredEntry(s, s1, rule, runners, k); }
    forall r | r in s'.live ensures Owned(s', r) { RegisteredOwned(s, s1, rule, runners, r); }
  }

  /** Starting a set for a rule that is not running: registered on success, no trace in the runtime on failure. */
  lemma LaunchSet(net: Net, s: State, s0: State, rule: Rule, runners: seq<Runner>, quiet: bool)
    requires Inv(s) && Inv(s0) && Runnable(rule) && Quiet(net, quiet)
    requires rule.ruleId !in s0.running && rule.ruleId in s0.collector.counters
    requires RunnersOk(Managed(rule, runners), s0.collector.counters[rule.ruleId], s0.nextUid)
    requires FreshRunners(s0, runners)
    ensures var (s1, ok) := StartRunners(net, s0, KeyOf(rule), runners);
      && (ok ==> Inv(Registered(s1, rule, runners)))
      && (!ok ==> Inv(s1) && s1.running == s0.running && s1.live == s0.live)
      && s1.running == s0.running && s1.nextUid == s0.nextUid && s1.collector.counters == s0.collector.counters
      && C.Grows(s0.collector, s1.collector, quiet)
  {
    var (s1, ok) := StartRunners(net, s0, KeyOf(rule), runners);
    StartRunnersFacts(net, s0, KeyOf(rule), runners, quiet);
    RunningHaveCounters(s0);
    if ok { RegisterInv(s0, s1, rule, runners); } else { SameRuntime(s0, s1); }
  }

  lemma BuiltCounter(s: State, rule: Rule)
    requires Inv(s)
    ensures rule.ruleId in AfterBuild(s, rule).collector.counters
    ensures KeepsCounters(s, AfterBuild(s, rule).collector)
  {
    C.GetCounterFacts(s.collector, rule.ruleId);
    RunningHaveCounters(s);
  }

  lemma AfterBuildRuntime(s: State, rule: Rule)
    ensures AfterBuild(s, rule).running == s.running && AfterBuild(s, rule).live == s.live
    ensures AfterBuild(s, rule).nextUid >= s.nextUid
    ensures AfterBuild(s, rule).collector == C.GetCounter(s.collector, rule.ruleId)
    ensures forall runners :: FreshRunners(s, runners) ==> FreshRunners(AfterBuild(s, rule), runners)
  {
    hide NewRunners;
  }

  lemma {:induction false} LaunchFacts(net: Net, s: State, rule: Rule, quiet: bool)
    requires Inv(s) && Runnable(rule) && rule.ruleId !in s.running && Quiet(net, quiet)
    ensures var (s', ok) := Launch(net, s, rule);
      && Touches(s, s', rule.ruleId, quiet)
      && (ok ==> s'.running == s.running[rule.ruleId := Managed(rule, NewRunners(s, rule))])
      && (!ok ==> s'.running == s.running && s'.live == s.live)
  {
    hide Inv, C.Ok, C.Grows, Runnable, RunnersOk, FreshRunners, Quiet, NewRunners, StartRunners, KeyOf, KeepsCounters, AfterBuild;
    BuiltCounter(s, rule);
    AfterBuildRuntime(s, rule);
    var s0 := AfterBuild(s, rule);
    var runners := NewRunners(s, rule);
    AfterBuildTouches(s, rule, quiet);
    NewRunnersFacts(s, rule);
    LaunchSet(net, s, s0, rule, runners, quiet);
    C.GrowsTransitive(s.collector, s0.collector, StartRunners(net, s0, KeyOf(rule), runners).0.collector, quiet);
    var s' := Launch(net, s, rule).0;
    assert s'.running - {rule.ruleId} == s.running - {rule.ruleId};
  }

  lemma StartFacts(net: Net, s: State, rule: Rule, quiet: bool)
    requires Inv(s) && Runnable(rule) && rule.ruleId !in s.running && Quiet(net, quiet)
    ensures var (s', ok) := StartRule(net, s, rule);
      && Touches(s, s', rule.ruleId, quiet)
      && (ok ==> rule.ruleId in s'.running && s'.running[rule.ruleId].rule == rule)
      && (!ok ==> s'.running == s.running && s'.live == s.live)
  {
    var s1 := EnsureMetadata(s, rule);
    EnsureMetadataTouches(s, rule, rule.ruleId, quiet);
    LaunchFacts(net, s1, rule, quiet);
    TouchesTransitive(s, s1, Launch(net, s1, rule).0, rule.ruleId, quiet);
  }
}

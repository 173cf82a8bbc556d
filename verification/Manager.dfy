/** The collector and the manager as objects whose methods change their fields,
    each tied to the function that says what it does. */
module Manager {
  import opened Wrappers
  import opened Text
  import opened Rules
  import C = Collector
  import M = ManagerModel
  import opened ManagerInvariant
  import T = ManagerTransaction
  import R = ManagerRollback

  class StatsCollector {
    var counters: map<string, C.Ref>
    var heap: map<C.Ref, C.Counter>
    var nextRef: C.Ref
    var protocols: map<string, Protocol>
    var bandwidths: map<string, Bandwidth>
    var quotas: map<string, TrafficQuota>

    function View(): C.State
      reads this
    {
      C.State(counters, heap, nextRef, protocols, bandwidths, quotas)
    }

    constructor ()
      ensures View() == C.State(map[], map[], 0, map[], map[], map[])
    {
      counters, heap, nextRef, protocols, bandwidths, quotas := map[], map[], 0, map[], map[], map[];
    }

    method BindRule(id: string) returns (counter: C.Ref)
      modifies this
      ensures View() == C.GetCounter(old(View()), id)
      ensures id in counters && counter == counters[id]
    {
      if id !in counters {
        counters := counters[id := nextRef];
        heap := heap[nextRef := C.Counter(C.ZERO, 0)];
        nextRef := nextRef + 1;
      }
      counter := counters[id];
    }

    method EnsureMetadata(rule: Rule)
      modifies this
      ensures View() == C.EnsureMetadata(old(View()), rule)
    {
      var id := rule.ruleId;
      var _ := BindRule(id);
      protocols := protocols[id := rule.protocol];
      if rule.bandwidth.None? { bandwidths := bandwidths - {id}; } else { bandwidths := bandwidths[id := rule.bandwidth.value]; }
      if rule.quota.None? { quotas := quotas - {id}; } else { quotas := quotas[id := rule.quota.value]; }
    }

    method RemoveRule(id: string)
      modifies this
      ensures View() == C.RemoveRule(old(View()), id)
    {
      if id == "" { return; }
      counters := counters - {id};
      protocols := protocols - {id};
      bandwidths := bandwidths - {id};
      quotas := quotas - {id};
    }

    method SetConns(id: string, value: int)
      modifies this
      ensures View() == C.SetConns(old(View()), id, value)
    {
      var counter := BindRule(id);
      if counter in heap { heap := heap[counter := heap[counter].(conns := value)]; }
    }

    /** Copies every counter's totals, in whatever order the map is walked. */
    method Snapshot() returns (s: C.Snapshot)
      requires C.Ok(View())
      ensures C.IsSnapshot(View(), s)
    {
      hide C.Lists;
      var saved: seq<C.SavedCounter> := [];
      var ids := counters.Keys;
      while ids != {}
        invariant ids <= counters.Keys
        invariant C.DistinctIds(saved)
        invariant forall i :: 0 <= i < |saved| ==> C.SavedOf(View(), saved[i]) && saved[i].id !in ids
        invariant forall id :: id in counters && id !in ids ==> C.Lists(saved, id)
        decreases ids
      {
        var id :| id in ids;
        ghost var before := saved;
        saved := saved + [C.SavedCounter(id, counters[id], heap[counters[id]].totals)];
        ids := ids - {id};
        C.ListsSnoc(before, saved[|before|]);
      }
      s := C.Snapshot(saved, protocols, bandwidths, quotas);
    }

    /** Puts a snapshot back: unsaved counters go, replaced ones get their history merged in. */
    method Restore(s: C.Snapshot)
      modifies this
      ensures View() == C.Restore(old(View()), s)
    {
      counters := map id | id in counters && C.Lists(s.counters, id) :: counters[id];
      var i := 0;
      while i < |s.counters|
        invariant 0 <= i <= |s.counters|
        invariant C.RestoreCounters(View(), s.counters[i..]) == C.RestoreCounters(C.DropUnsaved(old(View()), s.counters), s.counters)
      {
        var e := s.counters[i];
        if !(e.id in counters && counters[e.id] == e.counter) {
          var counter := BindRule(e.id);
          if counter in heap { heap := heap[counter := heap[counter].(totals := C.Plus(heap[counter].totals, e.totals))]; }
        }
        assert s.counters[i..][0] == e && s.counters[i..][1..] == s.counters[i + 1..];
        i := i + 1;
      }
      protocols, bandwidths, quotas := s.protocols, s.bandwidths, s.quotas;
    }
  }

  /** Why a transactional apply did not go through. */
  datatype Failure = NoFailure | InvalidSnapshot(index: nat) | ApplyFailed(rule: Rule, how: M.Restart)

  /** What `BeginApply` hands back: the journal of a pending transaction, or the failure and how its rollback went. */
  datatype ApplyResult = ApplyResult(
    failure: Failure,
    actions: seq<M.Action>,
    journal: seq<M.Undo>,
    before: C.Snapshot,
    rollbackFailed: bool)

  method ValidateSnapshot(rules: seq<Rule>) returns (desired: seq<Rule>, firstFailure: Option<nat>)
    ensures |desired| == |rules| && forall i :: 0 <= i < |rules| ==> desired[i] == Standardize(rules[i])
    ensures firstFailure.None? <==> T.Prevalidated(desired)
    ensures firstFailure.Some? ==>
      firstFailure.value < |rules| && T.Prevalidated(desired[..firstFailure.value]) && !T.Prevalidated(desired[..firstFailure.value + 1])
  {
    hide Valid, Standard, Standardize, T.Prevalidated, T.HasId;
    desired := [];
    EmptyIsPrevalidated();
    var seen: set<string> := {};
    firstFailure := None;
    for i := 0 to |rules|
      invariant |desired| == i && forall j :: 0 <= j < i ==> desired[j] == Standardize(rules[j])
      invariant firstFailure.None? ==> T.Prevalidated(desired)
      invariant firstFailure.None? ==> forall id :: id in seen <==> T.HasId(desired, id)
      invariant firstFailure.Some? ==>
        firstFailure.value < i && T.Prevalidated(desired[..firstFailure.value]) && !T.Prevalidated(desired[..firstFailure.value + 1])
    {
      var rule := Standardize(rules[i]);
      StandardizedIsStandard(rules[i]);
      ghost var before := desired;
      desired := desired + [rule];
      assert desired[..i] == before && desired[..i + 1] == desired;
      if firstFailure.None? {
        PrevalidatedSnoc(before, rule);
        if rule.ruleId == "" || rule.ruleId in seen || !Valid(rule) {
          firstFailure := Some(i);
        } else {
          seen := seen + {rule.ruleId};
        }
      } else {
        assert desired[..firstFailure.value] == before[..firstFailure.value];
        assert desired[..firstFailure.value + 1] == before[..firstFailure.value + 1];
      }
    }
    if firstFailure.Some? { PrevalidatedPrefix(desired, firstFailure.value + 1); }
  }

  lemma EmptyIsPrevalidated()
    ensures T.Prevalidated([]) && forall id :: !T.HasId([], id)
  {
  }

  lemma StandardizedIsStandard(r: Rule)
    ensures Standard(Standardize(r))
  {
    StandardizeStable(r);
  }

  lemma PrevalidatedSnoc(before: seq<Rule>, rule: Rule)
    requires T.Prevalidated(before) && Standard(rule)
    ensures T.Prevalidated(before + [rule]) <==> Valid(rule) && !T.HasId(before, rule.ruleId)
    ensures Valid(rule) ==> rule.ruleId != ""
    ensures forall id :: T.HasId(before + [rule], id) <==> T.HasId(before, id) || id == rule.ruleId
  {
    hide Valid, Standard;
    var all := before + [rule];
    ValidHasId(rule);
    forall id | T.HasId(before, id) ensures T.HasId(all, id) {
      var i :| 0 <= i < |before| && before[i].ruleId == id;
      assert all[i].ruleId == id;
    }
    assert all[|before|] == rule;
    assert forall i :: 0 <= i < |before| ==> all[i] == before[i];
    if T.HasId(before, rule.ruleId) {
      var i :| 0 <= i < |before| && before[i].ruleId == rule.ruleId;
      assert all[i].ruleId == all[|before|].ruleId;
    }
  }

  lemma ValidHasId(rule: Rule)
    requires Standard(rule)
    ensures Valid(rule) ==> rule.ruleId != ""
  {
  }

  lemma PrevalidatedPrefix(rules: seq<Rule>, n: nat)
    requires n <= |rules|
    ensures T.Prevalidated(rules) ==> T.Prevalidated(rules[..n])
  {
    hide Valid, Standard;
  }

  class Manager {
    const collector: StatsCollector
    const net: M.Net
    var running: map<string, M.Managed>
    var live: set<M.Runner>
    var ticks: nat
    var nextUid: nat

    function View(): M.State
      reads this, collector
    {
      M.State(running, live, collector.View(), ticks, nextUid)
    }

    ghost predicate Ready()
      reads this, collector
    {
      Inv(View())
    }

    constructor (collector: StatsCollector, net: M.Net)
      requires C.Ok(collector.View())
      ensures this.collector == collector && this.net == net && View().running == map[] && Ready()
    {
      this.collector := collector;
      this.net := net;
      running, live, ticks, nextUid := map[], {}, 0, 0;
    }

    // ---------- Runners ----------

    /** Time in which live runners forward traffic and nothing else happens. */
    method Pass()
      modifies this`ticks, collector`heap
      ensures View() == M.Tick(net, old(View()))
    {
      collector.heap := C.Forward(collector.View(), M.Writers(View()), net.traffic(ticks)).heap;
      ticks := ticks + 1;
    }

    /** One start attempt; live runners may have forwarded traffic before it. */
    method Start(key: RuntimeKey, runner: M.Runner) returns (ok: bool)
      modifies this`live, this`ticks, collector`heap
      ensures ok == !net.fails(old(ticks), M.LiveEndpoints(old(View())), key, runner.endpoint)
      ensures View() == if ok then M.Tick(net, old(View())).(live := old(live) + {runner}) else M.Tick(net, old(View()))
    {
      ok := !net.fails(ticks, M.LiveEndpoints(View()), key, runner.endpoint);
      Pass();
      if ok { live := live + {runner}; }
    }

    method StopRunnerSet(runners: seq<M.Runner>)
      modifies this`live
      ensures live == old(live) - M.ToSet(runners)
    {
      for i := 0 to |runners|
        invariant live == old(live) - M.ToSet(runners[..i])
      {
        assert runners[..i + 1] == runners[..i] + [runners[i]];
        assert M.ToSet(runners[..i + 1]) == M.ToSet(runners[..i]) + {runners[i]};
        live := live - {runners[i]};
      }
      assert runners[..|runners|] == runners;
    }
  
    /** Starts the runners in order; on a failure those already started are stopped. */
    method StartRunnerSet(key: RuntimeKey, runners: seq<M.Runner>) returns (ok: bool)
      modifies this`live, this`ticks, collector`heap
      ensures (View(), ok) == M.StartRunners(net, old(View()), key, runners)
    {
      ghost var s0 := View();
      assert runners[0..] == runners && runners[..0] == [];
      StoppingNone(M.StartRunners(net, s0, key, runners));
      for i := 0 to |runners|
        invariant M.StartRunners(net, s0, key, runners) == StoppingFirst(M.StartRunners(net, View(), key, runners[i..]), runners[..i])
        invariant collector.counters == old(collector.counters) && running == old(running) && nextUid == old(nextUid)
      {
        ghost var s := View();
        assert runners[i..][0] == runners[i] && runners[i..][1..] == runners[i + 1..];
        var started := Start(key, runners[i]);
        if !started {
          StopRunnerSet(runners[..i]);
          return false;
        }
        StoppingOneMore(M.StartRunners(net, View(), key, runners[i + 1..]), runners, i);
      }
      assert runners[|runners|..] == [];
      ok := true;
    }

    method BuildRunners(rule: Rule) returns (runners: seq<M.Runner>)
      modifies this`nextUid, collector
      ensures View() == M.AfterBuild(old(View()), rule) && runners == M.NewRunners(old(View()), rule)
    {
      var counter := collector.BindRule(rule.ruleId);
      var endpoints := EndpointsOf(KeyOf(rule));
      var uid := nextUid;
      runners := seq(|endpoints|, i requires 0 <= i < |endpoints| => M.Runner(uid + i, endpoints[i], counter));
      nextUid := nextUid + |runners|;
    }

    // ---------- Single-rule operations ----------

    method DetachAndStop(id: string) returns (current: Option<M.Managed>)
      modifies this`running, this`live
      ensures View() == M.Detach(old(View()), id)
      ensures current == if id in old(running) then Some(old(running)[id]) else None
    {
      if id !in running { return None; }
      current := Some(running[id]);
      running := running - {id};
      StopRunnerSet(current.value.runners);
    }

    method StartRuleInternal(raw: Rule) returns (ok: bool)
      modifies this, collector
      ensures (View(), ok) == M.StartRule(net, old(View()), raw)
    {
      hide Valid, Standardize, KeyOf, EndpointsOf, M.StartRunners, M.NewRunners, C.EnsureMetadata;
      var rule := Standardize(raw);
      if !Valid(rule) { return false; }
      if !rule.enabled {
        if rule.ruleId !in running { collector.EnsureMetadata(rule); }
        return true;
      }
      if rule.ruleId in running { return false; }
      collector.EnsureMetadata(rule);
      var runners := BuildRunners(rule);
      ok := StartRunnerSet(KeyOf(rule), runners);
      if ok { running := running[rule.ruleId := M.Managed(rule, runners)]; }
    }

    method StopRuleInternal(raw: string)
      modifies this, collector
      ensures View() == M.StopRule(old(View()), raw)
    {
      hide TrimSpace, C.SetConns;
      var id := TrimSpace(raw);
      if id == "" { return; }
      var _ := DetachAndStop(id);
      collector.SetConns(id, 0);
    }

    method RestoreAfterRestartFailure(previous: Option<Rule>) returns (how: M.Restart)
      modifies this, collector
      ensures (View(), how) == M.RestoreAfterFailure(net, old(View()), previous)
    {
      hide KeyOf, EndpointsOf, M.StartRunners, M.NewRunners, C.EnsureMetadata;
      if previous.None? { return M.Failed; }
      var rule := previous.value;
      collector.EnsureMetadata(rule);
      var runners := BuildRunners(rule);
      var ok := StartRunnerSet(KeyOf(rule), runners);
      if !ok { return M.Lost; }
      running := running[rule.ruleId := M.Managed(rule, runners)];
      how := M.Restored;
    }

    method RestartRuleInternal(raw: Rule) returns (how: M.Restart)
      modifies this, collector
      ensures (View(), how) == M.RestartRule(net, old(View()), raw)
    {
      hide Valid, Standardize, KeyOf, EndpointsOf, M.StartRunners, M.NewRunners, C.EnsureMetadata, M.StopRule, M.RestoreAfterFailure, C.SetConns;
      var rule := Standardize(raw);
      if !Valid(rule) { return M.Failed; }
      if !rule.enabled {
        collector.EnsureMetadata(rule);
        StopRuleInternal(rule.ruleId);
        return M.Restarted;
      }
      var runners := BuildRunners(rule);
      var current := DetachAndStop(rule.ruleId);
      if current.Some? { collector.SetConns(rule.ruleId, 0); }
      collector.EnsureMetadata(rule);
      var ok := StartRunnerSet(KeyOf(rule), runners);
      if !ok {
        how := RestoreAfterRestartFailure(if current.Some? then Some(current.value.rule) else None);
        return;
      }
      running := running[rule.ruleId := M.Managed(rule, runners)];
      how := M.Restarted;
    }

    method UpdateRule(rule: Rule)
      modifies this`running
      ensures View() == M.UpdateRule(old(View()), rule)
    {
      if rule.ruleId !in running { return; }
      running := running[rule.ruleId := running[rule.ruleId].(rule := rule)];
    }
  
    // ---------- The transaction ----------

    /** One desired rule, standardised and valid. */
    method ApplyOne(rule: Rule) returns (result: M.Applied)
      requires rule.ruleId != "" && Trimmed(rule.ruleId)
      modifies this, collector
      ensures result == M.ApplyOne(net, old(View()), rule) && View() == result.state
    {
      hide Valid, Standardize, KeyOf, RuntimeEqual, M.StartRule, M.RestartRule, M.StopRule, C.EnsureMetadata;
      var id := rule.ruleId;
      if !rule.enabled {
        collector.EnsureMetadata(rule);
        if id in running {
          var previous := running[id].rule;
          StopRuleInternal(id);
          return M.Applied(View(), M.ActionStopped, Some(M.StartAgain(previous)));
        }
        return M.Applied(View(), M.ActionUnchanged, None);
      }
      if id in running && RuntimeEqual(running[id].rule, rule) {
        var previous := running[id].rule;
        UpdateRule(rule);
        collector.EnsureMetadata(rule);
        return M.Applied(View(), M.ActionUnchanged, Some(M.UpdateBack(previous)));
      }
      if id in running {
        var previous := running[id].rule;
        var how := RestartRuleInternal(rule);
        if how != M.Restarted { return M.Broken(View(), how); }
        return M.Applied(View(), M.ActionRestarted, Some(M.RestartBack(previous)));
      }
      var ok := StartRuleInternal(rule);
      if !ok { return M.Broken(View(), M.Failed); }
      result := M.Applied(View(), M.ActionStarted, Some(M.StopAgain(id)));
    }

    method RunUndo(u: M.Undo) returns (ok: bool)
      modifies this, collector
      ensures (View(), ok) == M.RunUndo(net, old(View()), u)
    {
      hide M.StartRule, M.RestartRule, M.StopRule;
      match u
      case UpdateBack(previous) => UpdateRule(previous); ok := true;
      case RestartBack(previous) => var how := RestartRuleInternal(previous); ok := how == M.Restarted;
      case StartAgain(previous) => ok := StartRuleInternal(previous);
      case StopAgain(id) => StopRuleInternal(id); ok := true;
    }

    /** The rules that run, one each. */
    method RunningRules() returns (rules: seq<Rule>)
      requires Ready()
      ensures R.Serves(View(), rules)
    {
      hide Inv, Runnable, T.HasId;
      RunningHaveCounters(View());
      rules := [];
      var ids := running.Keys;
      while ids != {}
        invariant ids <= running.Keys
        invariant forall i :: 0 <= i < |rules| ==>
          rules[i].ruleId in running && running[rules[i].ruleId].rule == rules[i] && rules[i].ruleId !in ids
        invariant forall i, j :: 0 <= i < j < |rules| ==> rules[i].ruleId != rules[j].ruleId
        invariant forall id :: id in running && id !in ids ==> T.HasId(rules, id)
        decreases ids
      {
        var id :| id in ids;
        ghost var before := rules;
        rules := rules + [running[id].rule];
        ids := ids - {id};
        HasIdSnoc(before, running[id].rule);
      }
    }

    /** Undoes the journal in reverse order, restores statistics, realigns metadata. */
    method RollbackSteps(journal: seq<M.Undo>, before: C.Snapshot) returns (failed: bool, ghost serving: seq<Rule>)
      requires Ready() && T.JournalOk(View(), journal)
      modifies this, collector
      ensures R.Serves(M.UndoAll(net, old(View()), journal).0, serving)
      ensures (View(), !failed) == R.Rollback(net, old(View()), journal, before, serving)
    {
      hide Inv, M.RunUndo, T.JournalOk, T.RevertAll, C.Restore, C.EnsureMetadata, C.Grows, Quiet, R.Serves;
      ghost var s0 := View();
      failed := false;
      var i := |journal|;
      assert journal[..i] == journal;
      while i > 0
        invariant 0 <= i <= |journal|
        invariant M.UndoAll(net, s0, journal).0 == M.UndoAll(net, View(), journal[..i]).0
        invariant M.UndoAll(net, s0, journal).1 == (!failed && M.UndoAll(net, View(), journal[..i]).1)
      {
        i := i - 1;
        assert journal[..i + 1][..i] == journal[..i] && journal[..i + 1][i] == journal[i];
        var ok := RunUndo(journal[i]);
        if !ok { failed := true; }
      }
      AnyNet(net);
      T.UndoAllFacts(net, s0, journal, false);
      Pass();
      TickFacts(net, M.UndoAll(net, s0, journal).0, false);
      var rules := RunningRules();
      R.ServesLooksAtRunning(View(), M.UndoAll(net, s0, journal).0, rules);
      serving := rules;
      collector.Restore(before);
      ghost var s1 := View();
      for j := 0 to |rules|
        invariant M.AlignAll(s1, rules) == M.AlignAll(View(), rules[j..])
        invariant running == s1.running && live == s1.live && ticks == s1.ticks && nextUid == s1.nextUid
      {
        assert rules[j..][0] == rules[j] && rules[j..][1..] == rules[j + 1..];
        collector.EnsureMetadata(rules[j]);
      }
    }

    /** The running rules no desired rule names. */
    method UnmentionedRunning(desired: seq<Rule>) returns (ids: seq<string>)
      ensures forall i :: 0 <= i < |ids| ==> ids[i] in running && !T.HasId(desired, ids[i])
      ensures forall i, j :: 0 <= i < j < |ids| ==> ids[i] != ids[j]
      ensures forall id :: id in running && !T.HasId(desired, id) ==> id in ids
    {
      ids := [];
      var rest := running.Keys;
      while rest != {}
        invariant rest <= running.Keys
        invariant forall i :: 0 <= i < |ids| ==> ids[i] in running && ids[i] !in rest && !T.HasId(desired, ids[i])
        invariant forall i, j :: 0 <= i < j < |ids| ==> ids[i] != ids[j]
        invariant forall id :: id in running && id !in rest && !T.HasId(desired, id) ==> id in ids
        decreases rest
      {
        var id :| id in rest;
        if !T.HasId(desired, id) { ids := ids + [id]; }
        rest := rest - {id};
      }
    }

    /** Known rules that neither the snapshot nor the removals name lose their statistics. */
    method ForgetUnknown(desired: seq<Rule>, removed: seq<string>) returns (ghost forgotten: seq<string>)
      modifies collector
      ensures forall i :: 0 <= i < |forgotten| ==> !T.HasId(desired, forgotten[i]) && forgotten[i] !in removed
      ensures collector.View() == M.ForgetAll(old(collector.View()), forgotten)
    {
      forgotten := [];
      ghost var c0 := collector.View();
      var known := collector.protocols.Keys;
      while known != {}
        invariant forall i :: 0 <= i < |forgotten| ==> !T.HasId(desired, forgotten[i]) && forgotten[i] !in removed
        invariant collector.View() == M.ForgetAll(c0, forgotten)
        decreases known
      {
        var id :| id in known;
        if !T.HasId(desired, id) && id !in removed {
          ForgetSnoc(c0, forgotten, id);
          collector.RemoveRule(id);
          forgotten := forgotten + [id];
        }
        known := known - {id};
      }
    }
  
    /** Applies the desired rules in order until one fails, journaling how to go back. */
    method ApplyDesired(desired: seq<Rule>) returns (progress: M.Progress, actions: seq<M.Action>)
      requires T.Prevalidated(desired)
      modifies this, collector
      ensures progress == M.ApplyDesired(net, old(View()), desired, []) && View() == progress.state
    {
      hide Valid, Standard, M.ApplyOne;
      ghost var s0 := View();
      var journal: seq<M.Undo> := [];
      actions := [];
      assert desired[0..] == desired;
      for i := 0 to |desired|
        invariant M.ApplyDesired(net, s0, desired, []) == M.ApplyDesired(net, View(), desired[i..], journal)
      {
        assert desired[i..][0] == desired[i] && desired[i..][1..] == desired[i + 1..];
        ValidRuleId(desired[i]);
        var result := ApplyOne(desired[i]);
        if result.Broken? {
          return M.Stuck(View(), journal, desired[i], result.how), actions;
        }
        journal := M.Journaled(journal, result.undo);
        actions := actions + [result.action];
      }
      assert desired[|desired|..] == [];
      progress := M.Done(View(), journal);
    }

    /** Stops and forgets the running rules in `ids`. */
    method RemoveAll(ids: seq<string>, started: seq<M.Undo>) returns (journal: seq<M.Undo>)
      modifies this, collector
      ensures M.RemoveAll(old(View()), ids, started) == M.Done(View(), journal)
    {
      hide M.StopRule, C.RemoveRule;
      ghost var s0 := View();
      journal := started;
      assert ids[0..] == ids;
      for i := 0 to |ids|
        invariant M.RemoveAll(s0, ids, started) == M.RemoveAll(View(), ids[i..], journal)
      {
        assert ids[i..][0] == ids[i] && ids[i..][1..] == ids[i + 1..];
        if ids[i] in running { journal := journal + [M.StartAgain(running[ids[i]].rule)]; }
        StopRuleInternal(ids[i]);
        collector.RemoveRule(ids[i]);
      }
      assert ids[|ids|..] == [];
    }

    /** Applies a whole snapshot.  On success the changes stay reversible; on a
        failure they have been rolled back before this returns. */
    method BeginApply(rules: seq<Rule>, replaceAll: bool)
        returns (result: ApplyResult, ghost removed: seq<string>, ghost forgotten: seq<string>)
      requires Ready()
      modifies this, collector
      ensures Ready()
      ensures result.failure.InvalidSnapshot? <==> !T.Prevalidated(StandardizeAll(rules))
      ensures result.failure.InvalidSnapshot? ==> View() == old(View())
      ensures !result.failure.InvalidSnapshot? ==>
        R.LeftoversOf(net, old(View()), StandardizeAll(rules), replaceAll, removed, forgotten)
      ensures result.failure.NoFailure? ==>
        R.Transaction(net, old(View()), StandardizeAll(rules), replaceAll, removed, forgotten) == M.Done(View(), result.journal) &&
        Pending(old(View()), View(), result)
      ensures result.failure.ApplyFailed? ==>
        R.Transaction(net, old(View()), StandardizeAll(rules), replaceAll, removed, forgotten).Stuck? &&
        RolledBack(old(View()), View(), result.rollbackFailed)
    {
      hide Inv, Valid, Standard, Standardize, C.Grows, T.JournalOk, T.RevertAll, M.RulesOf, Quiet, T.Reflects, T.Mentions;
      removed, forgotten := [], [];
      var desired, firstFailure := ValidateSnapshot(rules);
      assert desired == StandardizeAll(rules);
      if firstFailure.Some? {
        return ApplyResult(InvalidSnapshot(firstFailure.value), [], [], C.Snapshot([], map[], map[], map[]), false), [], [];
      }
      ghost var s0 := View();
      AnyNet(net);
      CollectorOkOf(s0);
      var before := collector.Snapshot();
      var progress, actions := ApplyDesired(desired);
      R.NothingJournaled(s0);
      T.ApplyDesiredFacts(net, s0, desired, [], M.RulesOf(s0), false);
      if progress.Stuck? {
        ghost var broken := View();
        R.TransactionFacts(net, s0, desired, replaceAll, [], [], false);
        var failed, serving := RollbackSteps(progress.journal, before);
        StuckRollback(net, s0, broken, progress, before, serving, replaceAll, desired);
        result := ApplyResult(ApplyFailed(progress.rule, progress.how), actions, [], before, progress.how.Lost? || failed);
        return;
      }
      var journal := progress.journal;
      if replaceAll {
        var ids := UnmentionedRunning(desired);
        removed := ids;
        ghost var s1 := View();
        journal := RemoveAll(ids, journal);
        forgotten := ForgetUnknown(desired, ids);
      }
      R.TransactionFacts(net, s0, desired, replaceAll, removed, forgotten, false);
      result := ApplyResult(NoFailure, actions, journal, before, false);
    }
  }

  function StandardizeAll(rules: seq<Rule>): seq<Rule>
  {
    seq(|rules|, i requires 0 <= i < |rules| => Standardize(rules[i]))
  }

  /** A pending apply: its journal leads back, its snapshot is of the state it started in. */
  predicate Pending(s0: M.State, s: M.State, result: ApplyResult)
  {
    T.LeadsBack(s, result.journal, M.RulesOf(s0)) && C.IsSnapshot(s0.collector, result.before) &&
    C.Grows(s0.collector, s.collector, false)
  }

  /** What a rollback leaves: consistent, nothing new running, metadata and
      counters back, and unless it failed the same rules as before. */
  predicate RolledBack(s0: M.State, s: M.State, failed: bool)
  {
    Inv(s) && R.Aligned(s) && R.CountersBack(s0.collector, s.collector, false) &&
    s.running.Keys <= s0.running.Keys && (!failed ==> M.RulesOf(s) == M.RulesOf(s0))
  }

  lemma ValidRuleId(rule: Rule)
    requires Standard(rule) && Valid(rule)
    ensures rule.ruleId != "" && Trimmed(rule.ruleId)
  {
    TrimSpaceTrims(rule.ruleId);
  }

  lemma CollectorOkOf(s: M.State)
    requires Inv(s)
    ensures C.Ok(s.collector)
  {
  }

  lemma StuckRollback(net: M.Net, s0: M.State, broken: M.State, progress: M.Progress, before: C.Snapshot, serving: seq<Rule>, replaceAll: bool, desired: seq<Rule>)
    requires Inv(s0) && C.IsSnapshot(s0.collector, before) && progress.Stuck? && progress.state == broken
    requires T.StoppedWell(broken, progress.journal, M.RulesOf(s0), progress.how)
    requires C.Grows(s0.collector, broken.collector, false)
    requires R.Serves(M.UndoAll(net, broken, progress.journal).0, serving)
    ensures var (s', ok) := R.Rollback(net, broken, progress.journal, before, serving);
      RolledBack(s0, s', progress.how.Lost? || !ok)
  {
    hide Inv, C.Grows, T.JournalOk, T.RevertAll, M.UndoAll, R.Rollback, R.Serves, R.Aligned, R.CountersBack, C.IsSnapshot;
    AnyNet(net);
    assert M.RulesOf(s0).Keys == s0.running.Keys;
    R.RollbackFacts(net, s0, broken, progress.journal, before, serving, false);
  }

  /** A successful apply kept reversible until the associated file is committed. */
  class SnapshotApplyTransaction {
    const manager: Manager
    const result: ApplyResult
    ghost const origin: M.State
    var closed: bool

    constructor (manager: Manager, result: ApplyResult, ghost origin: M.State)
      ensures this.manager == manager && this.result == result && this.origin == origin && !closed
    {
      this.manager := manager;
      this.result := result;
      this.origin := origin;
      closed := false;
    }

    /** Makes the apply final. */
    method Commit()
      modifies this
      ensures closed
    {
      closed := true;
    }

    /** Restores what ran before the apply; a closed transaction is left alone. */
    method Rollback() returns (attempted: bool, failed: bool)
      requires !closed ==> Inv(origin) && Pending(origin, manager.View(), result)
      modifies this, manager, manager.collector
      ensures closed && attempted == !old(closed)
      ensures attempted ==> RolledBack(origin, manager.View(), failed)
      ensures !attempted ==> manager.View() == old(manager.View()) && !failed
    {
      hide Inv, C.Grows, T.JournalOk, T.RevertAll, M.UndoAll, R.Rollback, R.Serves, R.Aligned, R.CountersBack, C.IsSnapshot, M.RulesOf;
      if closed { return false, false; }
      closed := true;
      ghost var s := manager.View();
      ghost var serving;
      failed, serving := manager.RollbackSteps(result.journal, result.before);
      PendingRollback(manager.net, origin, s, result, serving);
      attempted := true;
    }
  }

  lemma PendingRollback(net: M.Net, s0: M.State, s: M.State, result: ApplyResult, serving: seq<Rule>)
    requires Inv(s0) && Pending(s0, s, result)
    requires R.Serves(M.UndoAll(net, s, result.journal).0, serving)
    ensures var (s', ok) := R.Rollback(net, s, result.journal, result.before, serving);
      RolledBack(s0, s', !ok)
  {
    hide Inv, C.Grows, T.JournalOk, T.RevertAll, M.UndoAll, R.Rollback, R.Serves, R.Aligned, R.CountersBack, C.IsSnapshot;
    AnyNet(net);
    assert M.RulesOf(s0).Keys == s0.running.Keys;
    R.RollbackFacts(net, s0, s, result.journal, result.before, serving, false);
  }

  lemma HasIdSnoc(rules: seq<Rule>, rule: Rule)
    ensures forall id :: T.HasId(rules + [rule], id) <==> T.HasId(rules, id) || id == rule.ruleId
  {
    forall id | T.HasId(rules, id) ensures T.HasId(rules + [rule], id) {
      var i :| 0 <= i < |rules| && rules[i].ruleId == id;
      assert (rules + [rule])[i].ruleId == id;
    }
    assert (rules + [rule])[|rules|].ruleId == rule.ruleId;
  }

  lemma {:induction false} ForgetSnoc(c: C.State, ids: seq<string>, id: string)
    ensures M.ForgetAll(c, ids + [id]) == C.RemoveRule(M.ForgetAll(c, ids), id)
    decreases |ids|
  {
    if ids == [] {
      assert [id][1..] == [];
    } else {
      ForgetSnoc(C.RemoveRule(c, ids[0]), ids[1..], id);
      assert (ids + [id])[1..] == ids[1..] + [id];
    }
  }

  /** A start set that failed stops the runners in `first` too. */
  function StoppingFirst(r: (M.State, bool), first: seq<M.Runner>): (M.State, bool)
  {
    if r.1 then r else (r.0.(live := r.0.live - M.ToSet(first)), false)
  }

  lemma StoppingOneMore(r: (M.State, bool), runners: seq<M.Runner>, i: nat)
    requires i < |runners|
    ensures StoppingFirst(if r.1 then r else (r.0.(live := r.0.live - {runners[i]}), false), runners[..i]) == StoppingFirst(r, runners[..i + 1])
  {
    assert runners[..i + 1] == runners[..i] + [runners[i]];
    assert M.ToSet(runners[..i + 1]) == M.ToSet(runners[..i]) + {runners[i]};
    assert r.0.live - {runners[i]} - M.ToSet(runners[..i]) == r.0.live - M.ToSet(runners[..i + 1]);
  }

  lemma StoppingNone(r: (M.State, bool))
    ensures StoppingFirst(r, []) == r
  {
    assert r.0.live - M.ToSet([]) == r.0.live;
  }
}

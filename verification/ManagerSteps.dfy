/** What restarting, updating, applying one rule and undoing one step do. */
module ManagerSteps {
  import opened Wrappers
  import opened Text
  import opened Rules
  import C = Collector
  import opened ManagerModel
  import opened ManagerInvariant

  // ---------- Restarting ----------

  lemma StopForRestartCounters(s: State, rule: Rule)
    requires Inv(s)
    ensures StopForRestart(s, rule).collector.counters == AfterBuild(s, rule).collector.counters
    ensures StopForRestart(s, rule).nextUid == AfterBuild(s, rule).nextUid
    ensures StopForRestart(s, rule).live <= s.live
  {
    hide Inv, C.Ok, KeyOf, EndpointsOf, NewRunners;
    BuiltCounter(s, rule);
  }

  /** The old runners are gone, the new ones are built and bound, nothing is started yet. */
  lemma StopForRestartFacts(s: State, rule: Rule, quiet: bool)
    requires Inv(s)
    ensures var s' := StopForRestart(s, rule);
      && Touches(s, s', rule.ruleId, quiet)
      && s'.running == s.running - {rule.ruleId}
      && s'.collector.counters == AfterBuild(s, rule).collector.counters
      && rule.ruleId in s'.collector.counters
      && s'.nextUid == AfterBuild(s, rule).nextUid
      && s'.live <= s.live
  {
    hide Inv, C.Ok, C.Grows, KeyOf, EndpointsOf, NewRunners;
    var id := rule.ruleId;
    var s1 := AfterBuild(s, rule);
    var s2 := Detach(s1, id);
    var s3 := if id in s.running then s2.(collector := C.SetConns(s2.collector, id, 0)) else s2;
    BuiltCounter(s, rule);
    StopForRestartCounters(s, rule);
    AfterBuildTouches(s, rule, quiet);
    DetachTouches(s1, id, quiet);
    SetConnsTouches(s2, id, 0, quiet);
    EnsureMetadataTouches(s3, rule, id, quiet);
    TouchesTransitive(s, s1, s2, id, quiet);
    if id in s.running { TouchesTransitive(s, s2, s3, id, quiet); }
    TouchesTransitive(s, s3, StopForRestart(s, rule), id, quiet);
  }

  lemma StillFresh(s: State, s0: State, runners: seq<Runner>)
    requires FreshRunners(s, runners) && s0.live <= s.live
    ensures FreshRunners(s0, runners)
  {
  }

  /** Going back to the previous rule after a failed restart. */
  lemma RestoreFacts(net: Net, s: State, previous: Option<Rule>, id: string, quiet: bool)
    requires Inv(s) && Quiet(net, quiet) && id !in s.running
    requires previous.Some? ==> Runnable(previous.value) && previous.value.ruleId == id
    ensures var (s', how) := RestoreAfterFailure(net, s, previous);
      && Touches(s, s', id, quiet)
      && how == (if previous.None? then Failed else if id in s'.running then Restored else Lost)
      && s'.running - {id} == s.running
      && (how.Failed? ==> s' == s)
      && (how.Restored? ==> s'.running[id].rule == previous.value)
      && (how.Lost? ==> s'.live == s.live)
  {
    hide Inv, C.Ok, Runnable, NewRunners, StartRunners, Quiet;
    if previous.None? {
      TouchesItself(s, id, quiet);
    } else {
      hide C.Grows;
      var s1 := EnsureMetadata(s, previous.value);
      EnsureMetadataTouches(s, previous.value, id, quiet);
      LaunchFacts(net, s1, previous.value, quiet);
      TouchesTransitive(s, s1, Launch(net, s1, previous.value).0, id, quiet);
    }
    assert s.running - {id} == s.running;
  }

  lemma TouchesItself(s: State, id: string, quiet: bool)
    requires Inv(s)
    ensures Touches(s, s, id, quiet)
  {
    hide EntryOk;
  }

  /** A restart is atomic: the new rule runs, or the old one does again, or the failure says it is gone. */
  lemma {:induction false} RestartFacts(net: Net, s: State, rule: Rule, quiet: bool)
    requires Inv(s) && Runnable(rule) && Quiet(net, quiet)
    ensures var (s', how) := RestartRule(net, s, rule);
      var id := rule.ruleId;
      && Touches(s, s', id, quiet)
      && (how.Restarted? ==> id in s'.running && s'.running[id].rule == rule)
      && (how.Failed? ==> id !in s.running && s'.running == s.running)
      && (how.Restored? ==> id in s.running && id in s'.running && s'.running[id].rule == s.running[id].rule)
      && (how.Lost? ==> id in s.running && s'.running == s.running - {id})
  {
    RunnableIsStandard(rule);
    RestartFactsAt(net, s, rule, quiet);
  }

  lemma RunnableIsStandard(rule: Rule)
    requires Runnable(rule)
    ensures Standardize(rule) == rule && Valid(rule) && rule.enabled
    ensures rule.ruleId != "" && Trimmed(rule.ruleId)
  {
    TrimSpaceTrims(rule.ruleId);
  }

  lemma RestartFactsAt(net: Net, s: State, rule: Rule, quiet: bool)
    requires Inv(s) && Runnable(rule) && Quiet(net, quiet)
    requires Standardize(rule) == rule && Valid(rule) && rule.enabled
    ensures var (s', how) := RestartRule(net, s, rule);
      var id := rule.ruleId;
      && Touches(s, s', id, quiet)
      && (how.Restarted? ==> id in s'.running && s'.running[id].rule == rule)
      && (how.Failed? ==> id !in s.running && s'.running == s.running)
      && (how.Restored? ==> id in s.running && id in s'.running && s'.running[id].rule == s.running[id].rule)
      && (how.Lost? ==> id in s.running && s'.running == s.running - {id})
  {
    hide Inv, C.Ok, C.Grows, Runnable, Valid, Standardize, KeyOf, EndpointsOf, NewRunners, StartRunners, StopForRestart, RunnersOk, FreshRunners, RestoreAfterFailure, Quiet;
    var id := rule.ruleId;
    var runners := NewRunners(s, rule);
    var s0 := StopForRestart(s, rule);
    StopForRestartFacts(s, rule, quiet);
    NewRunnersFacts(s, rule);
    SameCounterAfterBuild(s, rule);
    StillFresh(s, s0, runners);
    LaunchSet(net, s, s0, rule, runners, quiet);
    var (s1, ok) := StartRunners(net, s0, KeyOf(rule), runners);
    C.GrowsTransitive(s.collector, s0.collector, s1.collector, quiet);
    RunningHaveCounters(s);
    if ok {
      assert (s1.running[id := Managed(rule, runners)]) - {id} == s.running - {id};
    } else {
      var previous := if id in s.running then Some(s.running[id].rule) else None;
      RestoreFacts(net, s1, previous, id, quiet);
      TouchesTransitive(s, s1, RestoreAfterFailure(net, s1, previous).0, id, quiet);
      if id !in s.running { assert s.running - {id} == s.running; }
    }
  }

  lemma SameCounterAfterBuild(s: State, rule: Rule)
    ensures AfterBuild(s, rule).collector.counters == C.GetCounter(s.collector, rule.ruleId).counters
  {
  }

  // ---------- Updating in place ----------

  lemma UpdatedEntry(s: State, rule: Rule, k: string)
    requires Inv(s) && Runnable(rule) && rule.ruleId in s.running && k in s.running
    requires KeyOf(s.running[rule.ruleId].rule) == KeyOf(rule)
    ensures k in UpdateRule(s, rule).running && EntryOk(UpdateRule(s, rule), k)
  {
    hide Runnable, KeyOf, EndpointsOf;
    assert EntryOk(s, k);
  }

  lemma UpdatedOwned(s: State, rule: Rule, r: Runner)
    requires rule.ruleId in s.running && Owned(s, r)
    ensures Owned(UpdateRule(s, rule), r)
  {
    var k :| k in s.running && r in s.running[k].runners;
    assert k in UpdateRule(s, rule).running && r in UpdateRule(s, rule).running[k].runners;
  }

  lemma UpdateInv(s: State, rule: Rule)
    requires Inv(s) && Runnable(rule) && rule.ruleId in s.running
    requires KeyOf(s.running[rule.ruleId].rule) == KeyOf(rule)
    ensures Inv(UpdateRule(s, rule))
  {
    hide Runnable, KeyOf, EntryOk, Owned, C.Ok;
    var s' := UpdateRule(s, rule);
    forall k | k in s'.running ensures EntryOk(s', k) { UpdatedEntry(s, rule, k); }
    forall r | r in s'.live ensures Owned(s', r) { UpdatedOwned(s, rule, r); }
  }

  /** A change that needs no restart swaps the rule under its running runners. */
  lemma UpdateFacts(s: State, rule: Rule, quiet: bool)
    requires Inv(s) && Runnable(rule) && rule.ruleId in s.running
    requires KeyOf(s.running[rule.ruleId].rule) == KeyOf(rule)
    ensures var s' := UpdateRule(s, rule);
      && Touches(s, s', rule.ruleId, quiet)
      && rule.ruleId in s'.running && s'.running[rule.ruleId] == s.running[rule.ruleId].(rule := rule)
      && s'.live == s.live && s'.collector == s.collector
  {
    hide Inv, Runnable, KeyOf;
    UpdateInv(s, rule);
    TouchesItself(s, rule.ruleId, quiet);
    assert UpdateRule(s, rule).running - {rule.ruleId} == s.running - {rule.ruleId};
  }

  // ---------- One step and its undo ----------

  /** An undo step fits the state it is to be run in: a fact about its own rule only. */
  predicate StepOk(s: State, u: Undo)
  {
    match u
    case UpdateBack(p) => Runnable(p) && p.ruleId in s.running && KeyOf(s.running[p.ruleId].rule) == KeyOf(p)
    case RestartBack(p) => Runnable(p) && p.ruleId in s.running
    case StartAgain(p) => Runnable(p) && p.ruleId !in s.running
    case StopAgain(id) => id != "" && Trimmed(id)
  }

  /** The step's rule is back to what it was: the recorded rule, or not running. */
  predicate IsUndone(s: State, u: Undo)
  {
    match u
    case StopAgain(id) => id !in s.running
    case _ => u.previous.ruleId in s.running && s.running[u.previous.ruleId].rule == u.previous
  }

  /** Every undo touches its own rule only; a successful one restores it. */
  lemma UndoFacts(net: Net, s: State, u: Undo, quiet: bool)
    requires Inv(s) && StepOk(s, u) && Quiet(net, quiet)
    ensures var (s', ok) := RunUndo(net, s, u);
      Touches(s, s', UndoId(u), quiet) && (ok ==> IsUndone(s', u))
  {
    hide Inv, Runnable, KeyOf, StartRule, RestartRule, StopRule, UpdateRule, C.Grows, Quiet;
    match u
    case UpdateBack(p) => UpdateFacts(s, p, quiet);
    case RestartBack(p) => RestartFacts(net, s, p, quiet);
    case StartAgain(p) => StartFacts(net, s, p, quiet);
    case StopAgain(id) => StopTouches(s, id, quiet);
  }

  /** An undo that is never refused the stop it makes. */
  lemma StopAgainAlwaysWorks(net: Net, s: State, id: string)
    ensures RunUndo(net, s, StopAgain(id)).1
  {
  }

  /** `undo` takes `s'` back to `s` as far as rule `id` is concerned. */
  predicate Journals(s: State, s': State, id: string, undo: Option<Undo>)
  {
    match undo
    case None => id !in s.running && id !in s'.running
    case Some(u) => UndoId(u) == id && StepOk(s', u) && IsUndone(s, u)
  }

  lemma ApplyDisabled(net: Net, s: State, rule: Rule, quiet: bool)
    requires Inv(s) && Standard(rule) && Valid(rule) && !rule.enabled
    ensures var a := ApplyOne(net, s, rule);
      a.Applied? && Touches(s, a.state, rule.ruleId, quiet) && Journals(s, a.state, rule.ruleId, a.undo) &&
      rule.ruleId !in a.state.running
  {
    hide Inv, Valid, Standard, Runnable, Standardize, KeyOf, StopRule, C.Grows, C.EnsureMetadata;
    ValidId(rule);
    var s1 := EnsureMetadata(s, rule);
    EnsureMetadataTouches(s, rule, rule.ruleId, quiet);
    RunningHaveCounters(s);
    if rule.ruleId in s.running {
      StopTouches(s1, rule.ruleId, quiet);
      TouchesTransitive(s, s1, StopRule(s1, rule.ruleId), rule.ruleId, quiet);
    }
  }

  lemma ValidId(rule: Rule)
    requires Standard(rule) && Valid(rule)
    ensures rule.ruleId != "" && Trimmed(rule.ruleId)
    ensures rule.enabled ==> Runnable(rule)
  {
    TrimSpaceTrims(rule.ruleId);
  }

  lemma ApplyUnchanged(net: Net, s: State, rule: Rule, quiet: bool)
    requires Inv(s) && Runnable(rule) && rule.ruleId in s.running && RuntimeEqual(s.running[rule.ruleId].rule, rule)
    ensures var a := ApplyOne(net, s, rule);
      a == Applied(EnsureMetadata(UpdateRule(s, rule), rule), ActionUnchanged, Some(UpdateBack(s.running[rule.ruleId].rule))) &&
      Touches(s, a.state, rule.ruleId, quiet) && Journals(s, a.state, rule.ruleId, a.undo) &&
      a.state.running == s.running[rule.ruleId := s.running[rule.ruleId].(rule := rule)] && a.state.live == s.live
  {
    hide Inv, Runnable, KeyOf, RuntimeEqual, C.Grows, C.EnsureMetadata;
    RunningHaveCounters(s);
    RunnableKeys(s.running[rule.ruleId].rule, rule);
    var s1 := UpdateRule(s, rule);
    UpdateFacts(s, rule, quiet);
    EnsureMetadataTouches(s1, rule, rule.ruleId, quiet);
    TouchesTransitive(s, s1, EnsureMetadata(s1, rule), rule.ruleId, quiet);
  }

  lemma RunnableKeys(a: Rule, b: Rule)
    requires Runnable(a) && Runnable(b)
    ensures RuntimeEqual(a, b) <==> KeyOf(a) == KeyOf(b)
    ensures b.enabled
  {
    RuntimeEqualIsKeyEquality(a, b);
  }

  lemma ApplyRestart(net: Net, s: State, rule: Rule, quiet: bool)
    requires Inv(s) && Runnable(rule) && rule.ruleId in s.running && Quiet(net, quiet)
    requires !RuntimeEqual(s.running[rule.ruleId].rule, rule)
    ensures var a := ApplyOne(net, s, rule);
      && Touches(s, a.state, rule.ruleId, quiet)
      && (a.Applied? ==> a.action == ActionRestarted && Journals(s, a.state, rule.ruleId, a.undo) &&
                         rule.ruleId in a.state.running && a.state.running[rule.ruleId].rule == rule)
      && (a.Broken? ==> (a.how.Restored? && rule.ruleId in a.state.running && a.state.running[rule.ruleId].rule == s.running[rule.ruleId].rule)
                        || (a.how.Lost? && a.state.running == s.running - {rule.ruleId}))
  {
    hide Inv, Runnable, KeyOf, RuntimeEqual, C.Grows, RestartRule, Valid, Standardize, Quiet;
    RunnableIsStandard(rule);
    RunningHaveCounters(s);
    RestartFacts(net, s, rule, quiet);
  }

  lemma ApplyStart(net: Net, s: State, rule: Rule, quiet: bool)
    requires Inv(s) && Runnable(rule) && rule.ruleId !in s.running && Quiet(net, quiet)
    ensures var a := ApplyOne(net, s, rule);
      && Touches(s, a.state, rule.ruleId, quiet)
      && (a.Applied? ==> a.action == ActionStarted && Journals(s, a.state, rule.ruleId, a.undo) &&
                         rule.ruleId in a.state.running && a.state.running[rule.ruleId].rule == rule)
      && (a.Broken? ==> a.how.Failed? && a.state.running == s.running)
  {
    hide Inv, Runnable, KeyOf, RuntimeEqual, C.Grows, StartRule, Valid, Standardize, Quiet;
    RunnableIsStandard(rule);
    StartFacts(net, s, rule, quiet);
  }

  /** One desired rule, applied: only that rule is touched, and the journal entry leads back. */
  lemma ApplyOneFacts(net: Net, s: State, rule: Rule, quiet: bool)
    requires Inv(s) && Standard(rule) && Valid(rule) && Quiet(net, quiet)
    ensures var a := ApplyOne(net, s, rule);
      var id := rule.ruleId;
      && Touches(s, a.state, id, quiet)
      && (a.Applied? ==> Journals(s, a.state, id, a.undo))
      && (a.Applied? && rule.enabled ==> id in a.state.running && a.state.running[id].rule == rule)
      && (a.Applied? && !rule.enabled ==> id !in a.state.running)
      && (a.Broken? ==>
            (a.how.Failed? && a.state.running == s.running) ||
            (a.how.Restored? && id in s.running && id in a.state.running && a.state.running[id].rule == s.running[id].rule) ||
            (a.how.Lost? && id in s.running && a.state.running == s.running - {id}))
  {
    hide Inv, Runnable, KeyOf, RuntimeEqual, C.Grows, Valid, Standard, ApplyOne, StepOk, Quiet;
    ValidId(rule);
    if !rule.enabled {
      ApplyDisabled(net, s, rule, quiet);
    } else if rule.ruleId !in s.running {
      ApplyStart(net, s, rule, quiet);
    } else if RuntimeEqual(s.running[rule.ruleId].rule, rule) {
      ApplyUnchanged(net, s, rule, quiet);
    } else {
      ApplyRestart(net, s, rule, quiet);
    }
  }
}

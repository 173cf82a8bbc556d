/** Rolling a transaction back: the whole of it, and what it restores whichever starts fail. */
module ManagerRollback {
  import opened Wrappers
  import opened Rules
  import C = Collector
  import opened ManagerModel
  import opened ManagerInvariant
  import opened ManagerSteps
  import opened ManagerTransaction

  // ---------- Metadata ----------

  predicate AlignedRule(c: C.State, rule: Rule)
  {
    var id := rule.ruleId;
    && id in c.protocols && c.protocols[id] == rule.protocol
    && (if rule.bandwidth.None? then id !in c.bandwidths else id in c.bandwidths && c.bandwidths[id] == rule.bandwidth.value)
    && (if rule.quota.None? then id !in c.quotas else id in c.quotas && c.quotas[id] == rule.quota.value)
  }

  /** Protocol, bandwidth and quota metadata describe the rules that run. */
  predicate Aligned(s: State)
  {
    forall id :: id in s.running ==> AlignedRule(s.collector, s.running[id].rule)
  }

  lemma EnsureAligns(c: C.State, rule: Rule, other: Rule)
    ensures AlignedRule(C.EnsureMetadata(c, rule), rule)
    ensures other.ruleId != rule.ruleId && AlignedRule(c, other) ==> AlignedRule(C.EnsureMetadata(c, rule), other)
    ensures rule.ruleId in c.counters ==>
      C.EnsureMetadata(c, rule).counters == c.counters && C.EnsureMetadata(c, rule).heap == c.heap
  {
  }

  /** `rules` lists the rules that run, in whatever order. */
  predicate Serves(s: State, rules: seq<Rule>)
  {
    (forall i :: 0 <= i < |rules| ==> rules[i].ruleId in s.running && s.running[rules[i].ruleId].rule == rules[i]) &&
    (forall i, j :: 0 <= i < j < |rules| ==> rules[i].ruleId != rules[j].ruleId) &&
    (forall id :: id in s.running ==> HasId(rules, id))
  }

  lemma ServesLooksAtRunning(s: State, s': State, rules: seq<Rule>)
    requires Serves(s, rules) && s'.running == s.running
    ensures Serves(s', rules)
  {
  }

  lemma {:induction false} AlignAllFacts(s: State, rules: seq<Rule>)
    requires forall i :: 0 <= i < |rules| ==> rules[i].ruleId in s.collector.counters
    requires forall i, j :: 0 <= i < j < |rules| ==> rules[i].ruleId != rules[j].ruleId
    ensures var s' := AlignAll(s, rules);
      && s'.running == s.running && s'.live == s.live && s'.nextUid == s.nextUid
      && s'.collector.counters == s.collector.counters && s'.collector.heap == s.collector.heap
      && s'.collector.nextRef == s.collector.nextRef
      && (forall i :: 0 <= i < |rules| ==> AlignedRule(s'.collector, rules[i]))
      && (forall r: Rule :: !HasId(rules, r.ruleId) && AlignedRule(s.collector, r) ==> AlignedRule(s'.collector, r))
    decreases |rules|
  {
    hide AlignedRule, C.EnsureMetadata;
    if rules != [] {
      var rule, rest := rules[0], rules[1..];
      var s1 := EnsureMetadata(s, rule);
      EnsureAligns(s.collector, rule, rule);
      MetadataKeepsRefs(s.collector, rule);
      MentionsCons(rules, rest);
      AlignAllFacts(s1, rest);
      assert !HasId(rest, rule.ruleId);
      var s' := AlignAll(s, rules);
      forall i | 0 <= i < |rules| ensures AlignedRule(s'.collector, rules[i]) {
        if i > 0 { assert rules[i] == rest[i - 1]; }
      }
      forall r: Rule | !HasId(rules, r.ruleId) && AlignedRule(s.collector, r) ensures AlignedRule(s'.collector, r) {
        EnsureAligns(s.collector, rule, r);
      }
    }
  }

  lemma MetadataKeepsRefs(c: C.State, rule: Rule)
    ensures rule.ruleId in c.counters ==> C.EnsureMetadata(c, rule).nextRef == c.nextRef
  {
  }

  // ---------- Rollback ----------

  /** Undo steps backwards, then, after some more forwarding, the collector
      restored and the metadata realigned with what serves. */
  function Rollback(net: Net, s: State, journal: seq<Undo>, before: C.Snapshot, serving: seq<Rule>): (State, bool)
  {
    var (s1, ok) := UndoAll(net, s, journal);
    (AlignAll(RestoreCollector(Tick(net, s1), before), serving), ok)
  }

  /** No pre-existing counter lost anything; if nothing was forwarded meanwhile, none gained anything. */
  predicate CountersBack(c0: C.State, c: C.State, quiet: bool)
  {
    c.counters.Keys == c0.counters.Keys &&
    (forall id :: id in c0.counters ==> C.AtMost(C.TotalsOf(c0, id), C.TotalsOf(c, id))) &&
    (quiet ==> forall id :: id in c0.counters ==> C.TotalsOf(c, id) == C.TotalsOf(c0, id))
  }

  lemma RestoreKeepsRuntime(s0: State, s: State, before: C.Snapshot, quiet: bool)
    requires Inv(s0) && Inv(s) && C.IsSnapshot(s0.collector, before) && C.Grows(s0.collector, s.collector, quiet)
    requires s.running.Keys <= s0.running.Keys
    ensures Inv(RestoreCollector(s, before))
    ensures CountersBack(s0.collector, RestoreCollector(s, before).collector, quiet)
  {
    hide Inv, C.Ok, C.Grows, C.Restore, C.TotalsOf, C.IsSnapshot, Runnable;
    CollectorOk(s0);
    CollectorOk(s);
    C.RestoreFacts(s0.collector, s.collector, before, quiet);
    RunningHaveCounters(s0);
    RunningHaveCounters(s);
    SameRuntime(s, RestoreCollector(s, before));
  }

  lemma AlignKeepsRuntime(s0: State, s: State, serving: seq<Rule>, quiet: bool)
    requires Inv(s) && Serves(s, serving) && CountersBack(s0.collector, s.collector, quiet)
    ensures var s' := AlignAll(s, serving);
      Inv(s') && Aligned(s') && s'.running == s.running && s'.live == s.live && CountersBack(s0.collector, s'.collector, quiet)
  {
    hide Inv, C.Ok, AlignedRule, C.TotalsOf, C.AtMost, Runnable;
    RunningHaveCounters(s);
    AlignAllFacts(s, serving);
    var s' := AlignAll(s, serving);
    CollectorOk(s);
    SameCounterState(s.collector, s'.collector);
    SameRuntime(s, s');
    forall id | id in s'.running ensures AlignedRule(s'.collector, s'.running[id].rule) {
      assert HasId(serving, id);
      var i :| 0 <= i < |serving| && serving[i].ruleId == id;
    }
  }

  lemma SameCounterState(c: C.State, c': C.State)
    requires c'.counters == c.counters && c'.heap == c.heap && c'.nextRef == c.nextRef
    ensures C.Ok(c) ==> C.Ok(c')
    ensures forall id :: C.TotalsOf(c', id) == C.TotalsOf(c, id)
  {
  }

  /** Whatever pattern of start failures a rollback meets: the runtime stays
      consistent, no id runs that did not run before, metadata matches what
      runs, every counter is back, and if every undo worked the rules are too. */
  lemma RollbackFacts(net: Net, s0: State, s: State, journal: seq<Undo>, before: C.Snapshot, serving: seq<Rule>, quiet: bool)
    requires Inv(s0) && C.IsSnapshot(s0.collector, before) && Quiet(net, quiet)
    requires Inv(s) && JournalOk(s, journal) && C.Grows(s0.collector, s.collector, quiet)
    requires RevertAll(RulesOf(s), journal).Keys <= s0.running.Keys
    requires Serves(UndoAll(net, s, journal).0, serving)
    ensures var (s', ok) := Rollback(net, s, journal, before, serving);
      && Inv(s') && Aligned(s') && CountersBack(s0.collector, s'.collector, quiet)
      && s'.running.Keys <= s0.running.Keys
      && (ok ==> RulesOf(s') == RevertAll(RulesOf(s), journal))
  {
    hide Inv, C.Grows, C.IsSnapshot, JournalOk, RevertAll, Quiet, UndoAll, CountersBack, Aligned, AlignAll;
    UndoAllFacts(net, s, journal, quiet);
    var s1 := UndoAll(net, s, journal).0;
    TickFacts(net, s1, quiet);
    var s2 := Tick(net, s1);
    C.GrowsTransitive(s0.collector, s.collector, s1.collector, quiet);
    C.GrowsTransitive(s0.collector, s1.collector, s2.collector, quiet);
    RestoreKeepsRuntime(s0, s2, before, quiet);
    AlignKeepsRuntime(s0, RestoreCollector(s2, before), serving, quiet);
  }

  // ---------- The whole transaction ----------

  /** The changes of one transactional apply: desired rules in order, then, for
      replace-all, the running rules `removed` and the known rules `forgotten`. */
  function Transaction(net: Net, s: State, desired: seq<Rule>, replaceAll: bool, removed: seq<string>, forgotten: seq<string>): Progress
  {
    match ApplyDesired(net, s, desired, [])
    case Stuck(s1, journal, rule, how) => Stuck(s1, journal, rule, how)
    case Done(s1, journal) =>
      if !replaceAll then Done(s1, journal)
      else
        var p := RemoveAll(s1, removed, journal);
        Done(p.state.(collector := ForgetAll(p.state.collector, forgotten)), p.journal)
  }

  /** `removed` lists the running rules the snapshot does not mention; `forgotten` lists rules that do not run. */
  predicate Leftovers(s: State, desired: seq<Rule>, removed: seq<string>, forgotten: seq<string>)
  {
    (forall i :: 0 <= i < |removed| ==> removed[i] in s.running && !HasId(desired, removed[i])) &&
    (forall i, j :: 0 <= i < j < |removed| ==> removed[i] != removed[j]) &&
    (forall id :: id in s.running && !HasId(desired, id) ==> id in removed) &&
    (forall i :: 0 <= i < |forgotten| ==> !HasId(desired, forgotten[i]) && forgotten[i] !in removed)
  }

  predicate LeftoversOf(net: Net, s: State, desired: seq<Rule>, replaceAll: bool, removed: seq<string>, forgotten: seq<string>)
  {
    var p := ApplyDesired(net, s, desired, []);
    replaceAll && p.Done? ==> Leftovers(p.state, desired, removed, forgotten)
  }

  predicate TransactionOutcome(s: State, p: Progress)
  {
    match p
    case Done(s', journal) => LeadsBack(s', journal, RulesOf(s))
    case Stuck(s', journal, _, how) => StoppedWell(s', journal, RulesOf(s), how)
  }

  lemma NothingJournaled(s: State)
    requires Inv(s)
    ensures LeadsBack(s, [], RulesOf(s)) && forall id :: !Mentions([], id)
  {
  }

  lemma TransactionFacts(net: Net, s: State, desired: seq<Rule>, replaceAll: bool, removed: seq<string>, forgotten: seq<string>, quiet: bool)
    requires Inv(s) && Prevalidated(desired) && Quiet(net, quiet)
    requires LeftoversOf(net, s, desired, replaceAll, removed, forgotten)
    ensures var p := Transaction(net, s, desired, replaceAll, removed, forgotten);
      TransactionOutcome(s, p) && C.Grows(s.collector, p.state.collector, quiet)
  {
    hide Inv, C.Grows, Quiet, JournalOk, RevertAll, RulesOf, Mentions, Standard, Valid, RemoveAll, Reflects;
    NothingJournaled(s);
    ApplyDesiredFacts(net, s, desired, [], RulesOf(s), quiet);
    var p := ApplyDesired(net, s, desired, []);
    if p.Done? && replaceAll {
      var s1 := p.state;
      RemoveAllFacts(s1, removed, p.journal, RulesOf(s), quiet);
      var q := RemoveAll(s1, removed, p.journal);
      forall i | 0 <= i < |forgotten| ensures forgotten[i] !in q.state.running {
        assert !HasId(desired, forgotten[i]);
      }
      ForgetAllFacts(q.state, forgotten, quiet);
      C.GrowsTransitive(s.collector, s1.collector, q.state.collector, quiet);
      C.GrowsTransitive(s.collector, q.state.collector, ForgetAll(q.state.collector, forgotten), quiet);
      JournalSameRunning(q.state, q.state.(collector := ForgetAll(q.state.collector, forgotten)), q.journal);
    }
  }

  lemma JournalSameRunning(s: State, s': State, journal: seq<Undo>)
    requires s'.running == s.running
    ensures JournalOk(s, journal) ==> JournalOk(s', journal)
    ensures RulesOf(s') == RulesOf(s)
  {
    hide Runnable, KeyOf;
  }

  /** Between apply and rollback the commit is pending: live runners forward traffic, nothing else happens. */
  predicate Waited(s: State, s': State, quiet: bool)
  {
    s'.running == s.running && s'.live == s.live && s'.nextUid == s.nextUid && C.Ok(s'.collector) &&
    s'.collector.counters == s.collector.counters && C.Grows(s.collector, s'.collector, quiet)
  }

  /** Rollback after any transactional apply, failed or pending, for an
      arbitrary pattern of start failures before and during the rollback. */
  lemma TransactionRollsBack(
      net: Net, s0: State, desired: seq<Rule>, replaceAll: bool, removed: seq<string>, forgotten: seq<string>,
      later: Net, s: State, before: C.Snapshot, serving: seq<Rule>, quiet: bool)
    requires Inv(s0) && Prevalidated(desired) && Quiet(net, quiet) && Quiet(later, quiet)
    requires LeftoversOf(net, s0, desired, replaceAll, removed, forgotten)
    requires C.IsSnapshot(s0.collector, before)
    requires Waited(Transaction(net, s0, desired, replaceAll, removed, forgotten).state, s, quiet)
    requires Serves(UndoAll(later, s, Transaction(net, s0, desired, replaceAll, removed, forgotten).journal).0, serving)
    ensures var p := Transaction(net, s0, desired, replaceAll, removed, forgotten);
      var (s', ok) := Rollback(later, s, p.journal, before, serving);
      && Inv(s') && Aligned(s') && CountersBack(s0.collector, s'.collector, quiet)
      && s'.running.Keys <= s0.running.Keys
      && (ok && !(p.Stuck? && p.how.Lost?) ==> RulesOf(s') == RulesOf(s0))
  {
    hide Inv, C.Ok, C.Grows, C.IsSnapshot, JournalOk, RevertAll, Quiet, Transaction, LeftoversOf, Rollback, CountersBack, Aligned, Prevalidated;
    TransactionFacts(net, s0, desired, replaceAll, removed, forgotten, quiet);
    var p := Transaction(net, s0, desired, replaceAll, removed, forgotten);
    RunningHaveCounters(p.state);
    SameRuntime(p.state, s);
    JournalSameRunning(p.state, s, p.journal);
    C.GrowsTransitive(s0.collector, p.state.collector, s.collector, quiet);
    assert RulesOf(s0).Keys == s0.running.Keys;
    RollbackFacts(later, s0, s, p.journal, before, serving, quiet);
  }
}

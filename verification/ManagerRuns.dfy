/** Managers as they are used: any run of operations from an empty one keeps the
    invariant and a set of rules that can run together, so rollback is total in
    every reachable state. */
module ManagerRuns {
  import opened Wrappers
  import opened Text
  import opened Rules
  import C = Collector
  import opened ManagerModel
  import opened ManagerInvariant
  import opened ManagerSteps
  import opened ManagerTransaction
  import opened ManagerRollback
  import opened ManagerConflicts
  import opened ManagerTotality

  /** One apply, with what the map walks and the passing of time chose for it. */
  datatype Apply = Apply(
    net: Net, desired: seq<Rule>, replaceAll: bool, removed: seq<string>, forgotten: seq<string>)

  /** What happens after an apply that is taken back: it failed, or its commit did. */
  datatype Back = Back(net: Net, waited: State, before: C.Snapshot, serving: seq<Rule>)

  datatype Operation =
    | StartOne(net: Net, raw: Rule)
    | RestartOne(net: Net, raw: Rule)
    | StopOne(id: string)
    | RemoveOne(id: string)
    | PassTime(net: Net)
    | Commit(apply: Apply)
    | RollBack(apply: Apply, back: Back)

  function Applied(s: State, a: Apply): Progress { Transaction(a.net, s, a.desired, a.replaceAll, a.removed, a.forgotten) }

  ghost predicate ApplyOk(s: State, a: Apply, startable: Startable)
  {
    ConflictNet(a.net, startable) && Prevalidated(a.desired) && LeftoversOf(a.net, s, a.desired, a.replaceAll, a.removed, a.forgotten)
  }

  ghost predicate BackOk(s: State, a: Apply, b: Back, startable: Startable)
  {
    && ConflictNet(b.net, startable)
    && C.IsSnapshot(s.collector, b.before)
    && Waited(Applied(s, a).state, b.waited, false)
    && Serves(UndoAll(b.net, b.waited, Applied(s, a).journal).0, b.serving)
  }

  ghost predicate Enabled(s: State, op: Operation, startable: Startable)
  {
    match op
    case StartOne(net, _) => ConflictNet(net, startable)
    case RestartOne(net, _) => ConflictNet(net, startable)
    case StopOne(_) => true
    case RemoveOne(_) => true
    case PassTime(_) => true
    case Commit(a) => ApplyOk(s, a, startable) && Applied(s, a).Done?
    case RollBack(a, b) => ApplyOk(s, a, startable) && BackOk(s, a, b, startable)
  }

  function Do(s: State, op: Operation): State
  {
    match op
    case StartOne(net, raw) => StartRule(net, s, raw).0
    case RestartOne(net, raw) => RestartRule(net, s, raw).0
    case StopOne(id) => StopRule(s, id)
    case RemoveOne(id) => RemoveRunning(s, TrimSpace(id))
    case PassTime(net) => Tick(net, s)
    case Commit(a) => Applied(s, a).state
    case RollBack(a, b) => Rollback(b.net, b.waited, Applied(s, a).journal, b.before, b.serving).0
  }

  ghost predicate Executable(s: State, ops: seq<Operation>, startable: Startable)
    decreases |ops|
  {
    ops == [] || (Enabled(s, ops[0], startable) && Executable(Do(s, ops[0]), ops[1..], startable))
  }

  function Run(s: State, ops: seq<Operation>): State
    decreases |ops|
  {
    if ops == [] then s else Run(Do(s, ops[0]), ops[1..])
  }

  /** A manager just made, on a collector that may hold restored counts. */
  predicate Fresh(s: State) { s.running == map[] && s.live == {} && C.Ok(s.collector) }

  ghost predicate Sound(s: State, startable: Startable) { Inv(s) && Coexist(RulesOf(s), startable) }

  lemma FreshIsSound(s: State, startable: Startable)
    requires Fresh(s)
    ensures Sound(s, startable)
  {
    assert RulesOf(s) == map[];
  }

  // ---------- Single-rule operations ----------

  lemma SameRules(s: State, s': State, startable: Startable)
    requires Sound(s, startable) && Inv(s') && RulesOf(s') == RulesOf(s)
    ensures Sound(s', startable)
  {
  }

  lemma RuleGone(s: State, s': State, id: string, startable: Startable)
    requires Sound(s, startable) && Inv(s') && s'.running == s.running - {id}
    ensures Sound(s', startable)
  {
    hide Inv, Coexist;
    CoexistSubset(RulesOf(s), {id}, startable);
    assert RulesOf(s') == RulesOf(s) - {id};
  }

  lemma RuleSet(s: State, s': State, rule: Rule, startable: Startable)
    requires Sound(s, startable) && Inv(s') && FitsWith(RulesOf(s), rule, startable)
    requires s'.running - {rule.ruleId} == s.running - {rule.ruleId}
    requires rule.ruleId in s'.running && s'.running[rule.ruleId].rule == rule
    ensures Sound(s', startable)
  {
    hide Inv, Coexist, FitsWith;
    CoexistSubset(RulesOf(s), {rule.ruleId}, startable);
    CoexistExtended(RulesOf(s), rule, startable);
    var after := RulesOf(s)[rule.ruleId := rule];
    forall k ensures k in RulesOf(s') <==> k in after {
      if k != rule.ruleId { OthersAt(s, s', rule.ruleId, k); }
    }
    forall k | k in after ensures RulesOf(s')[k] == after[k] {
      if k != rule.ruleId { OthersAt(s, s', rule.ruleId, k); }
    }
    assert RulesOf(s') == after;
  }

  lemma Standardized(net: Net, s: State, raw: Rule)
    ensures var rule := Standardize(raw);
      && Standard(rule) && (Valid(rule) <==> Valid(raw)) && rule.enabled == raw.enabled
      && (Valid(rule) && rule.enabled ==> Runnable(rule))
  {
    StandardizeStable(raw);
  }

  lemma StartKeeps(net: Net, s: State, raw: Rule, startable: Startable)
    requires Sound(s, startable) && ConflictNet(net, startable)
    ensures Sound(Do(s, StartOne(net, raw)), startable)
  {
    hide Inv, Coexist, ConflictNet, Runnable, Valid, Standard, Standardize, C.Grows, FitsWith, Launch, Quiet, EnsureMetadata, KeyOf;
    Standardized(net, s, raw);
    var rule := Standardize(raw);
    if Valid(rule) {
      if !rule.enabled {
        EnsureMetadataTouches(s, rule, rule.ruleId, false);
        SameRunning(s, EnsureMetadata(s, rule));
        if rule.ruleId !in s.running { SameRules(s, EnsureMetadata(s, rule), startable); }
      } else if rule.ruleId !in s.running {
        AnyNet(net);
        StartIgnoresForm(net, s, raw);
        StartFacts(net, s, rule, false);
        StartFits(net, s, rule, startable);
        var (s', ok) := StartRule(net, s, rule);
        if ok { RuleSet(s, s', rule, startable); } else { SameRunning(s, s'); SameRules(s, s', startable); }
      }
    }
  }

  lemma SameRunning(s: State, s': State)
    ensures s'.running == s.running ==> RulesOf(s') == RulesOf(s)
  {
  }

  lemma StartIgnoresForm(net: Net, s: State, raw: Rule)
    ensures StartRule(net, s, Standardize(raw)) == StartRule(net, s, raw)
  {
    hide Launch, EnsureMetadata;
    StandardizeStable(raw);
    Standardized(net, s, raw);
    hide Valid, Standardize;
  }

  lemma RestartIgnoresForm(net: Net, s: State, raw: Rule)
    ensures RestartRule(net, s, Standardize(raw)) == RestartRule(net, s, raw)
  {
    hide StartRunners, RestoreAfterFailure, EnsureMetadata, StopRule, StopForRestart, NewRunners, KeyOf;
    StandardizeStable(raw);
    Standardized(net, s, raw);
    hide Valid, Standardize;
  }

  lemma StopKeeps(s: State, raw: string, startable: Startable)
    requires Sound(s, startable)
    ensures Sound(Do(s, StopOne(raw)), startable)
  {
    hide Inv, Coexist, C.Grows, TrimSpace, Detach;
    var id := TrimSpace(raw);
    TrimSpaceTrims(raw);
    TrimSpaceTrims(id);
    if id != "" {
      StopTouches(s, id, false);
      assert StopRule(s, raw) == StopRule(s, id);
      RuleGone(s, StopRule(s, id), id, startable);
    }
  }

  lemma RestartKeeps(net: Net, s: State, raw: Rule, startable: Startable)
    requires Sound(s, startable) && ConflictNet(net, startable)
    ensures Sound(Do(s, RestartOne(net, raw)), startable)
  {
    hide Inv, Coexist, ConflictNet, Runnable, Valid, Standard, Standardize, C.Grows, FitsWith, StartRunners, RestoreAfterFailure, Quiet, EnsureMetadata, StopRule, StopForRestart, NewRunners, KeyOf;
    Standardized(net, s, raw);
    var rule := Standardize(raw);
    if Valid(rule) && !rule.enabled {
      EnsureMetadataTouches(s, rule, rule.ruleId, false);
      SameRunning(s, EnsureMetadata(s, rule));
      SameRules(s, EnsureMetadata(s, rule), startable);
      StopKeeps(EnsureMetadata(s, rule), rule.ruleId, startable);
    } else if Valid(rule) {
      AnyNet(net);
      RestartIgnoresForm(net, s, raw);
      RestartFacts(net, s, rule, false);
      RestartFits(net, s, rule, startable);
      var (s', how) := RestartRule(net, s, rule);
      if how.Restarted? {
        RuleSet(s, s', rule, startable);
      } else if how.Failed? {
        SameRunning(s, s');
        SameRules(s, s', startable);
      } else {
        SameRuleAt(s, s', rule.ruleId);
        SameRules(s, s', startable);
      }
    }
  }

  lemma RemoveKeeps(s: State, id: string, startable: Startable)
    requires Sound(s, startable)
    ensures Sound(Do(s, RemoveOne(id)), startable)
  {
    hide Inv, Coexist, C.Grows, C.RemoveRule, StopRule, TrimSpace;
    TrimSpaceTrims(id);
    var t := TrimSpace(id);
    TrimSpaceTrims(t);
    StopKeeps(s, t, startable);
    if t != "" {
      StopTouches(s, t, false);
      var s1 := StopRule(s, t);
      RunningHaveCounters(s1);
      CollectorOk(s1);
      RemoveRuleKeeps(s1, t);
      C.RemoveRuleFacts(s1.collector, t);
      SameRuntime(s1, RemoveRunning(s, t));
      SameRunning(s1, RemoveRunning(s, t));
      SameRules(s1, RemoveRunning(s, t), startable);
    } else {
      NothingToRemove(s);
    }
  }

  lemma NothingToRemove(s: State)
    ensures RemoveRunning(s, "") == s
  {
    assert TrimSpace("") == "";
  }

  lemma PassKeeps(net: Net, s: State, startable: Startable)
    requires Sound(s, startable)
    ensures Sound(Do(s, PassTime(net)), startable)
  {
    hide Inv, Coexist, C.Grows, Tick, Quiet;
    AnyNet(net);
    TickFacts(net, s, false);
    SameRunning(s, Tick(net, s));
    SameRules(s, Tick(net, s), startable);
  }

  // ---------- Applies ----------

  lemma CommitKeeps(s: State, a: Apply, startable: Startable)
    requires Sound(s, startable) && Enabled(s, Commit(a), startable)
    ensures Sound(Do(s, Commit(a)), startable)
  {
    hide Inv, Coexist, C.Grows, Transaction, LeftoversOf, ConflictNet, Prevalidated, Quiet, ChainCoexists, JournalOk, RevertAll, RulesOf;
    AnyNet(a.net);
    TransactionFacts(a.net, s, a.desired, a.replaceAll, a.removed, a.forgotten, false);
    TransactionCoexists(a.net, s, a.desired, a.replaceAll, a.removed, a.forgotten, startable);
    ChainHead(RulesOf(Applied(s, a).state), Applied(s, a).journal, startable);
  }

  lemma RollBackKeeps(s: State, a: Apply, b: Back, startable: Startable)
    requires Sound(s, startable) && Enabled(s, RollBack(a, b), startable)
    ensures Sound(Do(s, RollBack(a, b)), startable)
    ensures RulesOf(Do(s, RollBack(a, b))) == RulesOf(s)
  {
    hide Inv, Coexist, C.IsSnapshot, Transaction, LeftoversOf, ConflictNet, Prevalidated, Quiet, Waited, Serves, UndoAll, Rollback, RulesOf, Aligned, CountersBack;
    AnyNet(a.net);
    AnyNet(b.net);
    RollbackIsTotal(a.net, s, a.desired, a.replaceAll, a.removed, a.forgotten, b.net, b.waited, b.before, b.serving, startable);
    TransactionRollsBack(a.net, s, a.desired, a.replaceAll, a.removed, a.forgotten, b.net, b.waited, b.before, b.serving, false);
    SameRules(s, Do(s, RollBack(a, b)), startable);
  }

  lemma StepKeeps(s: State, op: Operation, startable: Startable)
    requires Sound(s, startable) && Enabled(s, op, startable)
    ensures Sound(Do(s, op), startable)
  {
    match op
    case StartOne(net, raw) => hide Sound, Do; StartKeeps(net, s, raw, startable);
    case RestartOne(net, raw) => hide Sound, Do; RestartKeeps(net, s, raw, startable);
    case StopOne(id) => hide Sound, Do; StopKeeps(s, id, startable);
    case RemoveOne(id) => hide Sound, Do; RemoveKeeps(s, id, startable);
    case PassTime(net) => hide Sound, Do; PassKeeps(net, s, startable);
    case Commit(a) => hide Sound, Do; CommitKeeps(s, a, startable);
    case RollBack(a, b) => hide Sound, Do; RollBackKeeps(s, a, b, startable);
  }

  lemma {:induction false} RunKeeps(s: State, ops: seq<Operation>, startable: Startable)
    requires Sound(s, startable) && Executable(s, ops, startable)
    ensures Sound(Run(s, ops), startable)
    decreases |ops|
  {
    hide Sound, Do, Enabled;
    if ops != [] {
      StepKeeps(s, ops[0], startable);
      RunKeeps(Do(s, ops[0]), ops[1..], startable);
    }
  }

  /** In every state a manager reaches from an empty one, by any run of starts,
      restarts, stops, removals, committed applies and rolled-back applies, an
      apply that is taken back has all its undos succeed and leaves exactly the
      rules that ran before it. */
  lemma RollbackIsTotalOnRuns(s: State, ops: seq<Operation>, a: Apply, b: Back, startable: Startable)
    requires Fresh(s) && Executable(s, ops, startable)
    requires ApplyOk(Run(s, ops), a, startable) && BackOk(Run(s, ops), a, b, startable)
    ensures var s0 := Run(s, ops);
      var (s', ok) := Rollback(b.net, b.waited, Applied(s0, a).journal, b.before, b.serving);
      ok && RulesOf(s') == RulesOf(s0)
  {
    hide Inv, Coexist, C.IsSnapshot, Transaction, LeftoversOf, ConflictNet, Prevalidated, Waited, Serves, UndoAll, Rollback, RulesOf, Run, Executable;
    FreshIsSound(s, startable);
    RunKeeps(s, ops, startable);
    RollbackIsTotal(a.net, Run(s, ops), a.desired, a.replaceAll, a.removed, a.forgotten, b.net, b.waited, b.before, b.serving, startable);
  }
}

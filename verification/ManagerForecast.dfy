/** Which runners an apply touches: an unchanged rule keeps its very runners, a
    changed one gets new ones, and a repeated apply touches nothing. */
module ManagerForecast {
  import opened Wrappers
  import opened Rules
  import C = Collector
  import opened ManagerModel
  import opened ManagerInvariant
  import opened ManagerSteps
  import opened ManagerTransaction
  import opened ManagerRollback
  import opened ManagerTotality

  /** The rule runs on, on the same runner instances. */
  predicate Kept(s: State, s': State, id: string)
  {
    id in s.running && id in s'.running && s'.running[id].runners == s.running[id].runners
  }

  /** The rule runs on runner instances built after `s`. */
  predicate Renewed(s: State, s': State, id: string)
  {
    id in s'.running && s'.running[id].runners != [] &&
    forall i :: 0 <= i < |s'.running[id].runners| ==> s'.running[id].runners[i].uid >= s.nextUid
  }

  lemma RenewedIsNotKept(s: State, s': State, id: string)
    requires Inv(s) && Renewed(s, s', id)
    ensures !Kept(s, s', id)
  {
    hide Runnable, KeyOf, EndpointsOf;
    if id in s.running {
      assert EntryOk(s, id);
      assert s'.running[id].runners[0].uid >= s.nextUid;
    }
  }

  /** What becomes of one desired, enabled rule. */
  predicate AsForeseen(s: State, s': State, rule: Rule)
  {
    if rule.ruleId in s.running && RuntimeEqual(s.running[rule.ruleId].rule, rule)
    then Kept(s, s', rule.ruleId)
    else Renewed(s, s', rule.ruleId)
  }

  lemma BuiltAreNew(s: State, rule: Rule)
    requires Runnable(rule)
    ensures NewRunners(s, rule) != []
    ensures forall i :: 0 <= i < |NewRunners(s, rule)| ==> NewRunners(s, rule)[i].uid >= s.nextUid
  {
  }

  lemma RestoreIsNoRestart(net: Net, s: State, previous: Option<Rule>)
    ensures RestoreAfterFailure(net, s, previous).1 != Restarted
  {
    hide Launch;
  }

  lemma ApplyOneForeseen(net: Net, s: State, rule: Rule)
    requires Inv(s) && Runnable(rule)
    ensures var a := ApplyOne(net, s, rule);
      a.Applied? ==> AsForeseen(s, a.state, rule)
  {
    hide Inv, Runnable, RuntimeEqual, StartRunners, StopForRestart, NewRunners, KeyOf, Valid, Standardize, C.EnsureMetadata, RestoreAfterFailure;
    RunnableIsStandard(rule);
    BuiltAreNew(s, rule);
    BuiltAreNew(EnsureMetadata(s, rule), rule);
    var s1 := StartRunners(net, StopForRestart(s, rule), KeyOf(rule), NewRunners(s, rule)).0;
    RestoreIsNoRestart(net, s1, if rule.ruleId in s.running then Some(s.running[rule.ruleId].rule) else None);
  }

  lemma ForeseenLater(s: State, s1: State, s': State, rule: Rule, first: Rule)
    requires rule.ruleId != first.ruleId && s1.running - {first.ruleId} == s.running - {first.ruleId}
    requires s.nextUid <= s1.nextUid && AsForeseen(s1, s', rule)
    ensures AsForeseen(s, s', rule)
  {
    hide RuntimeEqual;
    OthersAt(s, s1, first.ruleId, rule.ruleId);
  }

  lemma ForeseenFirst(s: State, s1: State, s': State, rule: Rule)
    requires AsForeseen(s, s1, rule) && rule.ruleId in s1.running ==> rule.ruleId in s'.running && s'.running[rule.ruleId] == s1.running[rule.ruleId]
    requires AsForeseen(s, s1, rule)
    ensures AsForeseen(s, s', rule)
  {
    hide RuntimeEqual;
  }

  lemma {:induction false} ApplyDesiredForeseen(net: Net, s: State, desired: seq<Rule>, journal: seq<Undo>)
    requires Inv(s) && Prevalidated(desired) && JournalOk(s, journal)
    requires forall i :: 0 <= i < |desired| ==> !Mentions(journal, desired[i].ruleId)
    ensures var p := ApplyDesired(net, s, desired, journal);
      p.Done? ==> forall i :: 0 <= i < |desired| && desired[i].enabled ==> AsForeseen(s, p.state, desired[i])
    decreases |desired|
  {
    hide Inv, C.Grows, Quiet, Standard, Valid, ApplyOne, StepOk, Journals, JournalOk, RevertAll, RulesOf, Mentions, AsForeseen, LeadsBack;
    if desired != [] {
      var rule, rest := desired[0], desired[1..];
      var a := ApplyOne(net, s, rule);
      AnyNet(net);
      ApplyOneFacts(net, s, rule, false);
      if a.Applied? {
        LeadsBackFrom(s, journal);
        JournalExtended(s, a.state, rule.ruleId, journal, a.undo, RevertAll(RulesOf(s), journal));
        var j1 := Journaled(journal, a.undo);
        LeadsBackIs(a.state, j1, RevertAll(RulesOf(s), journal));
        forall i | 0 <= i < |rest| ensures !Mentions(j1, rest[i].ruleId) { assert rest[i] == desired[i + 1]; }
        ApplyDesiredForeseen(net, a.state, rest, j1);
        ApplyDesiredFacts(net, a.state, rest, j1, RevertAll(RulesOf(s), journal), false);
        var p := ApplyDesired(net, a.state, rest, j1);
        if p.Done? {
          forall i | 0 <= i < |desired| && desired[i].enabled ensures AsForeseen(s, p.state, desired[i]) {
            if i == 0 {
              ValidId(rule);
              ApplyOneForeseen(net, s, rule);
              assert !HasId(rest, rule.ruleId);
              ForeseenFirst(s, a.state, p.state, rule);
            } else {
              assert desired[i] == rest[i - 1];
              ForeseenLater(s, a.state, p.state, desired[i], rule);
            }
          }
        }
      }
    }
  }

  lemma LeadsBackFrom(s: State, journal: seq<Undo>)
    requires Inv(s) && JournalOk(s, journal)
    ensures LeadsBack(s, journal, RevertAll(RulesOf(s), journal))
  {
  }

  lemma LeadsBackIs(s: State, journal: seq<Undo>, orig: RuleMap)
    requires LeadsBack(s, journal, orig)
    ensures Inv(s) && JournalOk(s, journal)
  {
  }

  lemma KeptIff(s: State, s': State, rule: Rule)
    requires Inv(s) && AsForeseen(s, s', rule)
    ensures Kept(s, s', rule.ruleId) <==> rule.ruleId in s.running && RuntimeEqual(s.running[rule.ruleId].rule, rule)
  {
    hide Inv, RuntimeEqual, Kept, Renewed;
    if !(rule.ruleId in s.running && RuntimeEqual(s.running[rule.ruleId].rule, rule)) { RenewedIsNotKept(s, s', rule.ruleId); }
  }

  /** After a successful replace-all apply, each desired enabled rule kept its
      very runners exactly when RuntimeEqual said the change needs no restart;
      otherwise all its runners are new. */
  lemma {:induction false} TransactionForeseen(net: Net, s: State, desired: seq<Rule>, removed: seq<string>, forgotten: seq<string>, i: nat)
    requires Inv(s) && Prevalidated(desired) && LeftoversOf(net, s, desired, true, removed, forgotten)
    requires i < |desired| && desired[i].enabled
    ensures var p := Transaction(net, s, desired, true, removed, forgotten);
      p.Done? ==>
        && AsForeseen(s, p.state, desired[i])
        && (Kept(s, p.state, desired[i].ruleId) <==>
            desired[i].ruleId in s.running && RuntimeEqual(s.running[desired[i].ruleId].rule, desired[i]))
  {
    hide Inv, C.Grows, Quiet, Standard, Valid, RulesOf, RevertAll, Mentions, RemoveAll, JournalOk, AsForeseen, StepOk, Kept, RuntimeEqual;
    AnyNet(net);
    NothingJournaled(s);
    LeadsBackIs(s, [], RulesOf(s));
    ApplyDesiredForeseen(net, s, desired, []);
    ApplyDesiredFacts(net, s, desired, [], RulesOf(s), false);
    var q := ApplyDesired(net, s, desired, []);
    if q.Done? {
      RemoveAllFacts(q.state, removed, q.journal, RulesOf(s), false);
      var p := Transaction(net, s, desired, true, removed, forgotten);
      var id := desired[i].ruleId;
      assert HasId(desired, id);
      IdSetIs(removed, id);
      assert id !in removed by { forall j | 0 <= j < |removed| ensures removed[j] != id { assert !HasId(desired, removed[j]); } }
      ForeseenFirst(s, q.state, p.state, desired[i]);
      KeptIff(s, p.state, desired[i]);
    }
  }

  // ---------- A repeated apply ----------

  /** Every desired rule already is as desired. */
  predicate Settled(s: State, desired: seq<Rule>)
  {
    forall i :: 0 <= i < |desired| ==>
      if desired[i].enabled
      then desired[i].ruleId in s.running && RuntimeEqual(s.running[desired[i].ruleId].rule, desired[i])
      else desired[i].ruleId !in s.running
  }

  /** No start was attempted, nothing was stopped, every rule kept its runners. */
  predicate Untouched(s: State, s': State)
  {
    s'.live == s.live && s'.ticks == s.ticks && s'.running.Keys == s.running.Keys &&
    forall id :: id in s.running ==> s'.running[id].runners == s.running[id].runners
  }

  lemma ApplySettled(net: Net, s: State, rule: Rule)
    requires Inv(s) && Standard(rule) && Valid(rule) && Settled(s, [rule])
    ensures var a := ApplyOne(net, s, rule);
      && a.Applied? && a.action == ActionUnchanged && Untouched(s, a.state) && Inv(a.state)
      && a.state.running - {rule.ruleId} == s.running - {rule.ruleId}
  {
    hide Inv, Runnable, RuntimeEqual, KeyOf, Valid, Standard, C.Grows, C.EnsureMetadata, RestartRule, StartRule;
    ValidId(rule);
    AnyNet(net);
    ApplyOneFacts(net, s, rule, false);
    assert [rule][0] == rule;
  }

  lemma {:induction false} RepeatedApplyTouchesNothing(net: Net, s: State, desired: seq<Rule>, journal: seq<Undo>)
    requires Inv(s) && Prevalidated(desired) && Settled(s, desired)
    ensures var p := ApplyDesired(net, s, desired, journal);
      p.Done? && Untouched(s, p.state)
    decreases |desired|
  {
    hide Inv, Standard, Valid, ApplyOne, RuntimeEqual, C.Grows;
    if desired != [] {
      var rule, rest := desired[0], desired[1..];
      ApplySettled(net, s, rule);
      var a := ApplyOne(net, s, rule);
      forall i | 0 <= i < |rest| ensures Settled(a.state, [rest[i]]) {
        assert rest[i] == desired[i + 1];
        OthersAt(s, a.state, rule.ruleId, rest[i].ruleId);
      }
      assert Settled(a.state, rest) by { forall i | 0 <= i < |rest| ensures Settled(a.state, [rest[i]]) && [rest[i]][0] == rest[i] {} }
      RepeatedApplyTouchesNothing(net, a.state, rest, Journaled(journal, a.undo));
    }
  }

  /** Applying a snapshot again right after it succeeded restarts nothing and attempts no start. */
  lemma ApplyTwice(net: Net, again: Net, s: State, desired: seq<Rule>, removed: seq<string>, forgotten: seq<string>)
    requires Inv(s) && Prevalidated(desired) && LeftoversOf(net, s, desired, true, removed, forgotten)
    requires Transaction(net, s, desired, true, removed, forgotten).Done?
    ensures var s1 := Transaction(net, s, desired, true, removed, forgotten).state;
      var p := Transaction(again, s1, desired, true, [], []);
      LeftoversOf(again, s1, desired, true, [], []) && p.Done? && Untouched(s1, p.state)
  {
    hide Inv, Standard, Valid, RuntimeEqual, C.Grows, Transaction, ApplyDesired, LeftoversOf;
    var s1 := Transaction(net, s, desired, true, removed, forgotten).state;
    SuccessRunsExactlyDesired(net, s, desired, removed, forgotten);
    SuccessSettles(s1, desired);
    forall id | id in s1.running ensures HasId(desired, id) { assert Wanted(desired, id, s1.running[id].rule); }
    RepeatedApplyTouchesNothing(again, s1, desired, []);
    NoLeftovers(again, s1, desired);
  }

  lemma SuccessSettles(s: State, desired: seq<Rule>)
    requires Inv(s) && Prevalidated(desired)
    requires forall id, rule :: (id in s.running && s.running[id].rule == rule) <==> Wanted(desired, id, rule)
    ensures Settled(s, desired)
  {
    hide Inv, Standard, RuntimeEqual;
    forall id | id in s.running ensures Wanted(desired, id, s.running[id].rule) {}
    forall i | 0 <= i < |desired|
      ensures if desired[i].enabled
              then desired[i].ruleId in s.running && RuntimeEqual(s.running[desired[i].ruleId].rule, desired[i])
              else desired[i].ruleId !in s.running
    {
      var id := desired[i].ruleId;
      ValidSources(desired[i]);
      if desired[i].enabled { assert Wanted(desired, id, desired[i]); }
    }
  }

  lemma ValidSources(rule: Rule)
    requires Standard(rule) && Valid(rule)
    ensures RuntimeEqual(rule, rule)
  {
  }

  lemma NoLeftovers(net: Net, s: State, desired: seq<Rule>)
    requires Inv(s) && Prevalidated(desired) && Settled(s, desired)
    requires forall id :: id in s.running ==> HasId(desired, id)
    ensures LeftoversOf(net, s, desired, true, [], [])
    ensures var p := Transaction(net, s, desired, true, [], []);
      p.Done? && Untouched(s, p.state)
  {
    hide Inv, Standard, Valid, RuntimeEqual;
    RepeatedApplyTouchesNothing(net, s, desired, []);
  }
}

/** The main results about the transaction: rollback is total when starts fail
    only for conflicts, and success leaves exactly the desired rules running. */
module ManagerTotality {
  import opened Wrappers
  import opened Rules
  import C = Collector
  import opened ManagerModel
  import opened ManagerInvariant
  import opened ManagerSteps
  import opened ManagerTransaction
  import opened ManagerRollback
  import opened ManagerConflicts

  lemma JournalsReverts(s: State, s': State, id: string, undo: Option<Undo>)
    requires Journals(s, s', id, undo) && s'.running - {id} == s.running - {id}
    ensures undo.None? ==> RulesOf(s') == RulesOf(s)
    ensures undo.Some? ==> Revert(RulesOf(s'), undo.value) == RulesOf(s)
  {
    hide StepOk, Revert;
    match undo
    case Some(u) => UndoneIsReverted(s', s, u);
    case None =>
      OtherRulesKept(s, s', id);
      assert RulesOf(s') - {id} == RulesOf(s') && RulesOf(s) - {id} == RulesOf(s);
  }

  lemma SameRulesWhenRestored(s: State, s': State, id: string)
    requires s'.running - {id} == s.running - {id}
    requires s'.running == s.running || (id in s.running && id in s'.running && s'.running[id].rule == s.running[id].rule)
    ensures RulesOf(s') == RulesOf(s)
  {
    if s'.running != s.running { SameRuleAt(s, s', id); }
  }

  lemma SameRuleAt(s: State, s': State, id: string)
    requires s'.running - {id} == s.running - {id} && id in s.running && id in s'.running && s'.running[id].rule == s.running[id].rule
    ensures RulesOf(s') == RulesOf(s)
  {
    forall k | k != id ensures k in s'.running <==> k in s.running
                       ensures k in s.running ==> s'.running[k] == s.running[k] { OthersAt(s, s', id, k); }
  }

  lemma {:induction false} ApplyDesiredCoexists(net: Net, s: State, desired: seq<Rule>, journal: seq<Undo>, startable: Startable)
    requires ConflictNet(net, startable) && Inv(s) && Prevalidated(desired)
    requires ChainCoexists(RulesOf(s), journal, startable)
    ensures var p := ApplyDesired(net, s, desired, journal);
      ChainCoexists(RulesOf(p.state), p.journal, startable) && (p.Stuck? ==> !p.how.Lost?)
    decreases |desired|
  {
    hide Inv, C.Grows, ConflictNet, Standard, Valid, ApplyOne, StepOk, Journals, RulesOf, ChainCoexists, Coexist, Revert;
    if desired != [] {
      var rule, rest := desired[0], desired[1..];
      var a := ApplyOne(net, s, rule);
      ChainHead(RulesOf(s), journal, startable);
      AnyNet(net);
      ApplyOneFacts(net, s, rule, false);
      ApplyOneCoexists(net, s, rule, startable);
      if a.Applied? {
        JournalsReverts(s, a.state, rule.ruleId, a.undo);
        ChainExtended(RulesOf(s), journal, a.undo, RulesOf(a.state), startable);
        ApplyDesiredCoexists(net, a.state, rest, Journaled(journal, a.undo), startable);
      } else {
        SameRulesWhenRestored(s, a.state, rule.ruleId);
      }
    }
  }

  lemma {:induction false} RemoveAllCoexists(s: State, ids: seq<string>, journal: seq<Undo>, startable: Startable)
    requires Inv(s) && ChainCoexists(RulesOf(s), journal, startable)
    requires forall i :: 0 <= i < |ids| ==> ids[i] in s.running
    requires forall i, j :: 0 <= i < j < |ids| ==> ids[i] != ids[j]
    ensures ChainCoexists(RulesOf(RemoveAll(s, ids, journal).state), RemoveAll(s, ids, journal).journal, startable)
    decreases |ids|
  {
    hide Inv, C.Grows, StepOk, Journals, RulesOf, ChainCoexists, Coexist, Revert, RemoveRunning;
    if ids != [] {
      var id, rest := ids[0], ids[1..];
      var s1 := RemoveRunning(s, id);
      var undo := StartAgain(s.running[id].rule);
      RemoveRunningFacts(s, id, false);
      ChainHead(RulesOf(s), journal, startable);
      JournalsReverts(s, s1, id, Some(undo));
      RemovedRules(s, s1, id);
      CoexistSubset(RulesOf(s), {id}, startable);
      ChainExtended(RulesOf(s), journal, Some(undo), RulesOf(s1), startable);
      forall i | 0 <= i < |rest| ensures rest[i] in s1.running { assert rest[i] == ids[i + 1]; }
      RemoveAllCoexists(s1, rest, journal + [undo], startable);
    }
  }

  lemma RemovedRules(s: State, s': State, id: string)
    requires s'.running == s.running - {id}
    ensures RulesOf(s') == RulesOf(s) - {id}
  {
  }

  lemma TransactionCoexists(net: Net, s: State, desired: seq<Rule>, replaceAll: bool, removed: seq<string>, forgotten: seq<string>, startable: Startable)
    requires ConflictNet(net, startable) && Inv(s) && Prevalidated(desired) && Coexist(RulesOf(s), startable)
    requires LeftoversOf(net, s, desired, replaceAll, removed, forgotten)
    ensures var p := Transaction(net, s, desired, replaceAll, removed, forgotten);
      ChainCoexists(RulesOf(p.state), p.journal, startable) && (p.Stuck? ==> !p.how.Lost?)
  {
    hide Inv, C.Grows, ConflictNet, RulesOf, Coexist, Revert, RemoveAll, JournalOk, RevertAll, Reflects, Mentions, Prevalidated, Quiet;
    ApplyDesiredCoexists(net, s, desired, [], startable);
    var p := ApplyDesired(net, s, desired, []);
    if p.Done? && replaceAll {
      AnyNet(net);
      NothingJournaled(s);
      ApplyDesiredFacts(net, s, desired, [], RulesOf(s), false);
      RemoveAllCoexists(p.state, removed, p.journal, startable);
      var q := RemoveAll(p.state, removed, p.journal);
      JournalSameRunning(q.state, q.state.(collector := ForgetAll(q.state.collector, forgotten)), q.journal);
    }
  }

  /** Rollback is total: if starts fail only for endpoint conflicts with live
      runners or for unstartable rules, then after every failed apply and every
      pending one, all undos succeed and exactly the earlier rules run again. */
  lemma RollbackIsTotal(
      net: Net, s0: State, desired: seq<Rule>, replaceAll: bool, removed: seq<string>, forgotten: seq<string>,
      later: Net, s: State, before: C.Snapshot, serving: seq<Rule>, startable: Startable)
    requires ConflictNet(net, startable) && ConflictNet(later, startable)
    requires Inv(s0) && Coexist(RulesOf(s0), startable) && Prevalidated(desired)
    requires LeftoversOf(net, s0, desired, replaceAll, removed, forgotten)
    requires C.IsSnapshot(s0.collector, before)
    requires Waited(Transaction(net, s0, desired, replaceAll, removed, forgotten).state, s, false)
    requires Serves(UndoAll(later, s, Transaction(net, s0, desired, replaceAll, removed, forgotten).journal).0, serving)
    ensures var p := Transaction(net, s0, desired, replaceAll, removed, forgotten);
      var (s', ok) := Rollback(later, s, p.journal, before, serving);
      ok && RulesOf(s') == RulesOf(s0)
  {
    hide Inv, C.Ok, C.Grows, C.IsSnapshot, JournalOk, RevertAll, Quiet, Transaction, LeftoversOf, ConflictNet, Coexist, CountersBack, Aligned, Prevalidated, UndoAll, AlignAll, Serves, ChainCoexists, RulesOf;
    AnyNet(net);
    AnyNet(later);
    TransactionFacts(net, s0, desired, replaceAll, removed, forgotten, false);
    TransactionCoexists(net, s0, desired, replaceAll, removed, forgotten, startable);
    var p := Transaction(net, s0, desired, replaceAll, removed, forgotten);
    RunningHaveCounters(p.state);
    SameRuntime(p.state, s);
    JournalSameRunning(p.state, s, p.journal);
    UndoAllWorks(later, s, p.journal, startable);
    TransactionRollsBack(net, s0, desired, replaceAll, removed, forgotten, later, s, before, serving, false);
  }

  // ---------- Success ----------

  predicate Wanted(desired: seq<Rule>, id: string, rule: Rule)
  {
    exists i :: 0 <= i < |desired| && desired[i].enabled && desired[i].ruleId == id && desired[i] == rule
  }

  lemma IdSetIs(ids: seq<string>, id: string)
    ensures id in ids <==> id in IdSet(ids)
  {
  }

  /** A successful replace-all apply leaves exactly the enabled desired rules running. */
  lemma SuccessRunsExactlyDesired(net: Net, s: State, desired: seq<Rule>, removed: seq<string>, forgotten: seq<string>)
    requires Inv(s) && Prevalidated(desired) && LeftoversOf(net, s, desired, true, removed, forgotten)
    ensures var p := Transaction(net, s, desired, true, removed, forgotten);
      p.Done? ==> Inv(p.state) && forall id, rule :: (id in p.state.running && p.state.running[id].rule == rule) <==> Wanted(desired, id, rule)
  {
    hide Inv, C.Grows, RulesOf, RemoveAll, JournalOk, RevertAll, Mentions, Standard, Valid, Quiet;
    AnyNet(net);
    NothingJournaled(s);
    ApplyDesiredFacts(net, s, desired, [], RulesOf(s), false);
    var q := ApplyDesired(net, s, desired, []);
    if q.Done? {
      TransactionFacts(net, s, desired, true, removed, forgotten, false);
      RemoveAllFacts(q.state, removed, q.journal, RulesOf(s), false);
      var p := Transaction(net, s, desired, true, removed, forgotten);
      assert p.state.running == q.state.running - IdSet(removed);
      forall id, rule ensures (id in p.state.running && p.state.running[id].rule == rule) <==> Wanted(desired, id, rule) {
        if id in p.state.running && p.state.running[id].rule == rule {
          IdSetIs(removed, id);
          assert HasId(desired, id);
          var i :| 0 <= i < |desired| && desired[i].ruleId == id;
        }
        if Wanted(desired, id, rule) {
          var i :| 0 <= i < |desired| && desired[i].enabled && desired[i].ruleId == id && desired[i] == rule;
          assert HasId(desired, id);
          assert id !in IdSet(removed);
        }
      }
    }
  }
}

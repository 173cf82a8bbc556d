/** The transactional apply and its rollback, for every pattern of start failures. */
module ManagerTransaction {
  import opened Wrappers
  import opened Rules
  import C = Collector
  import opened ManagerModel
  import opened ManagerInvariant
  import opened ManagerSteps

  type RuleMap = map<string, Rule>

  // ---------- Reverting on rule maps ----------

  function Revert(rules: RuleMap, u: Undo): RuleMap
  {
    if u.StopAgain? then rules - {u.id} else rules[u.previous.ruleId := u.previous]
  }

  function RevertAll(rules: RuleMap, journal: seq<Undo>): RuleMap
    decreases |journal|
  {
    if journal == [] then rules else RevertAll(Revert(rules, journal[|journal| - 1]), journal[..|journal| - 1])
  }

  predicate Mentions(journal: seq<Undo>, id: string)
  {
    exists i :: 0 <= i < |journal| && UndoId(journal[i]) == id
  }

  /** Each rule is journaled once, and every step fits the state. */
  predicate JournalOk(s: State, journal: seq<Undo>)
  {
    (forall i :: 0 <= i < |journal| ==> StepOk(s, journal[i])) &&
    (forall i, j :: 0 <= i < j < |journal| ==> UndoId(journal[i]) != UndoId(journal[j]))
  }

  lemma StepFramed(s: State, s': State, id: string, u: Undo)
    requires s'.running - {id} == s.running - {id} && UndoId(u) != id && StepOk(s, u)
    ensures StepOk(s', u)
  {
    hide Runnable, KeyOf;
    if !u.StopAgain? {
      var k := u.previous.ruleId;
      assert k in s.running <==> k in s.running - {id};
      assert k in s'.running <==> k in s'.running - {id};
      assert k in s.running ==> (s.running - {id})[k] == s.running[k];
      assert k in s'.running ==> (s'.running - {id})[k] == s'.running[k];
    }
  }

  lemma JournalFramed(s: State, s': State, id: string, journal: seq<Undo>)
    requires s'.running - {id} == s.running - {id} && !Mentions(journal, id) && JournalOk(s, journal)
    ensures JournalOk(s', journal)
  {
    hide StepOk;
    forall i | 0 <= i < |journal| ensures StepOk(s', journal[i]) { StepFramed(s, s', id, journal[i]); }
  }

  lemma OtherRulesKept(s: State, s': State, id: string)
    requires s'.running - {id} == s.running - {id}
    ensures RulesOf(s') - {id} == RulesOf(s) - {id}
  {
    forall k | k != id ensures k in s'.running <==> k in s.running {
      assert k in s.running <==> k in s.running - {id};
      assert k in s'.running <==> k in s'.running - {id};
    }
    forall k | k != id && k in s.running ensures s'.running[k] == s.running[k] {
      assert (s.running - {id})[k] == (s'.running - {id})[k];
    }
  }

  lemma UndoneIsReverted(s: State, s': State, u: Undo)
    requires s'.running - {UndoId(u)} == s.running - {UndoId(u)} && IsUndone(s', u)
    ensures RulesOf(s') == Revert(RulesOf(s), u)
  {
    var id := UndoId(u);
    OtherRulesKept(s, s', id);
    forall k | k != id
      ensures k in RulesOf(s') <==> k in RulesOf(s)
      ensures k in RulesOf(s) ==> RulesOf(s')[k] == RulesOf(s)[k]
    {
      assert k in RulesOf(s) <==> k in RulesOf(s) - {id};
      assert k in RulesOf(s') <==> k in RulesOf(s') - {id};
      assert k in RulesOf(s) ==> (RulesOf(s') - {id})[k] == (RulesOf(s) - {id})[k];
    }
  }

  lemma {:induction false} RevertAllKeys(a: RuleMap, b: RuleMap, journal: seq<Undo>)
    requires a.Keys <= b.Keys
    ensures RevertAll(a, journal).Keys <= RevertAll(b, journal).Keys
    decreases |journal|
  {
    if journal != [] {
      var u := journal[|journal| - 1];
      RevertAllKeys(Revert(a, u), Revert(b, u), journal[..|journal| - 1]);
    }
  }

  // ---------- The journal backwards ----------

  lemma KeysAfterUndo(net: Net, s: State, u: Undo, quiet: bool)
    requires Inv(s) && StepOk(s, u) && Quiet(net, quiet)
    ensures RunUndo(net, s, u).0.running.Keys <= Revert(RulesOf(s), u).Keys
  {
    hide Inv, StepOk, RunUndo, Runnable, Quiet, C.Grows;
    var (s', ok) := RunUndo(net, s, u);
    UndoFacts(net, s, u, quiet);
    StopAgainOk(net, s, u);
    forall k | k in s'.running ensures k in Revert(RulesOf(s), u) {
      if k != UndoId(u) {
        assert k in s'.running - {UndoId(u)};
        assert k in s.running;
      }
    }
  }

  lemma StopAgainOk(net: Net, s: State, u: Undo)
    ensures u.StopAgain? ==> RunUndo(net, s, u).1
  {
    if u.StopAgain? { StopAgainAlwaysWorks(net, s, u.id); }
  }

  /** Replaying the journal: all undos succeeding restores the recorded rules
      exactly, and whatever fails, no id appears that was not there before. */
  lemma {:induction false} UndoAllFacts(net: Net, s: State, journal: seq<Undo>, quiet: bool)
    requires Inv(s) && JournalOk(s, journal) && Quiet(net, quiet)
    ensures var (s', ok) := UndoAll(net, s, journal);
      && Inv(s') && C.Grows(s.collector, s'.collector, quiet)
      && (ok ==> RulesOf(s') == RevertAll(RulesOf(s), journal))
      && s'.running.Keys <= RevertAll(RulesOf(s), journal).Keys
    decreases |journal|
  {
    hide Inv, C.Grows, Quiet, RunUndo, StepOk, Revert, IsUndone;
    if journal == [] {
      GrowsItself(s, quiet);
    } else {
      var last := |journal| - 1;
      var u, rest := journal[last], journal[..last];
      var (s1, ok1) := RunUndo(net, s, u);
      UndoFacts(net, s, u, quiet);
      KeysAfterUndo(net, s, u, quiet);
      assert !Mentions(rest, UndoId(u));
      assert JournalOk(s, rest);
      JournalFramed(s, s1, UndoId(u), rest);
      UndoAllFacts(net, s1, rest, quiet);
      if ok1 { UndoneIsReverted(s, s1, u); }
      RevertAllKeys(RulesOf(s1), Revert(RulesOf(s), u), rest);
      C.GrowsTransitive(s.collector, s1.collector, UndoAll(net, s1, rest).0.collector, quiet);
    }
  }

  lemma GrowsItself(s: State, quiet: bool)
    requires Inv(s)
    ensures C.Grows(s.collector, s.collector, quiet)
  {
    hide EntryOk;
  }

  // ---------- Applying forward ----------

  predicate HasId(rules: seq<Rule>, id: string)
  {
    exists i :: 0 <= i < |rules| && rules[i].ruleId == id
  }

  /** What validation of the whole snapshot establishes before anything changes. */
  predicate Prevalidated(desired: seq<Rule>)
  {
    (forall i :: 0 <= i < |desired| ==> Standard(desired[i]) && Valid(desired[i])) &&
    (forall i, j :: 0 <= i < j < |desired| ==> desired[i].ruleId != desired[j].ruleId)
  }

  /** The journal leads from `s` back to `orig`. */
  predicate LeadsBack(s: State, journal: seq<Undo>, orig: RuleMap)
  {
    Inv(s) && JournalOk(s, journal) && RevertAll(RulesOf(s), journal) == orig
  }

  lemma JournalExtended(s: State, s': State, id: string, journal: seq<Undo>, undo: Option<Undo>, orig: RuleMap)
    requires LeadsBack(s, journal, orig) && Inv(s') && !Mentions(journal, id)
    requires s'.running - {id} == s.running - {id} && Journals(s, s', id, undo)
    ensures LeadsBack(s', Journaled(journal, undo), orig)
    ensures forall k :: Mentions(Journaled(journal, undo), k) ==> Mentions(journal, k) || k == id
  {
    hide Inv, StepOk, Runnable, KeyOf;
    JournalFramed(s, s', id, journal);
    var extended := Journaled(journal, undo);
    match undo
    case None =>
      OtherRulesKept(s, s', id);
      assert RulesOf(s') - {id} == RulesOf(s') && RulesOf(s) - {id} == RulesOf(s);
    case Some(u) =>
      assert extended[..|journal|] == journal && extended[|extended| - 1] == u;
      UndoneIsReverted(s', s, u);
      forall k | Mentions(extended, k) ensures Mentions(journal, k) || k == id {
        var i :| 0 <= i < |extended| && UndoId(extended[i]) == k;
        if i < |journal| { assert UndoId(journal[i]) == k; }
      }
      forall i | 0 <= i < |journal| ensures UndoId(journal[i]) != id { assert Mentions(journal, UndoId(journal[i])); }
  }

  /** How far a stopped transaction is from the state it started in. */
  predicate StoppedWell(s: State, journal: seq<Undo>, orig: RuleMap, how: Restart)
  {
    Inv(s) && JournalOk(s, journal) && RevertAll(RulesOf(s), journal).Keys <= orig.Keys &&
    (!how.Lost? ==> RevertAll(RulesOf(s), journal) == orig)
  }

  lemma BrokenStops(s: State, s': State, id: string, journal: seq<Undo>, orig: RuleMap, how: Restart)
    requires LeadsBack(s, journal, orig) && Inv(s') && !Mentions(journal, id)
    requires s'.running - {id} == s.running - {id}
    requires (how.Failed? && s'.running == s.running) ||
             (how.Restored? && id in s.running && id in s'.running && s'.running[id].rule == s.running[id].rule) ||
             (how.Lost? && s'.running == s.running - {id})
    ensures StoppedWell(s', journal, orig, how)
  {
    hide Inv, StepOk;
    JournalFramed(s, s', id, journal);
    if how.Lost? {
      assert RulesOf(s').Keys <= RulesOf(s).Keys;
      RevertAllKeys(RulesOf(s'), RulesOf(s), journal);
    } else {
      OtherRulesKept(s, s', id);
      assert RulesOf(s') == RulesOf(s) by {
        forall k | k != id ensures k in RulesOf(s') <==> k in RulesOf(s)
                           ensures k in RulesOf(s) ==> RulesOf(s')[k] == RulesOf(s)[k] {
          assert k in RulesOf(s) <==> k in RulesOf(s) - {id};
          assert k in RulesOf(s') <==> k in RulesOf(s') - {id};
          assert k in RulesOf(s) ==> (RulesOf(s') - {id})[k] == (RulesOf(s) - {id})[k];
        }
      }
    }
  }

  /** After `desired`: enabled rules run as given, disabled ones do not, others are as before. */
  ghost predicate Reflects(s: State, s': State, desired: seq<Rule>)
  {
    (forall i :: 0 <= i < |desired| && desired[i].enabled ==>
      desired[i].ruleId in s'.running && s'.running[desired[i].ruleId].rule == desired[i]) &&
    (forall i :: 0 <= i < |desired| && !desired[i].enabled ==> desired[i].ruleId !in s'.running) &&
    (forall id :: !HasId(desired, id) ==> (id in s'.running <==> id in s.running)) &&
    (forall id :: !HasId(desired, id) && id in s.running ==> s'.running[id] == s.running[id])
  }

  lemma OthersAt(s: State, s': State, id: string, k: string)
    requires s'.running - {id} == s.running - {id} && k != id
    ensures k in s'.running <==> k in s.running
    ensures k in s.running ==> s'.running[k] == s.running[k]
  {
    assert k in s.running <==> k in s.running - {id};
    assert k in s'.running <==> k in s'.running - {id};
    assert k in s.running ==> (s.running - {id})[k] == (s'.running - {id})[k];
  }

  lemma ReflectsCons(s: State, s1: State, s': State, desired: seq<Rule>)
    requires desired != [] && (forall i, j :: 0 <= i < j < |desired| ==> desired[i].ruleId != desired[j].ruleId)
    requires s1.running - {desired[0].ruleId} == s.running - {desired[0].ruleId}
    requires desired[0].enabled ==> desired[0].ruleId in s1.running && s1.running[desired[0].ruleId].rule == desired[0]
    requires !desired[0].enabled ==> desired[0].ruleId !in s1.running
    requires Reflects(s1, s', desired[1..])
    ensures Reflects(s, s', desired)
  {
    var id, rest := desired[0].ruleId, desired[1..];
    assert !HasId(rest, id);
    forall i | 0 <= i < |desired| && i > 0 ensures desired[i] == rest[i - 1] {}
    MentionsCons(desired, rest);
    forall k | !HasId(desired, k) ensures (k in s'.running <==> k in s.running) && (k in s.running ==> s'.running[k] == s.running[k]) {
      OthersAt(s, s1, id, k);
    }
  }

  ghost predicate DesiredOutcome(s: State, desired: seq<Rule>, journal: seq<Undo>, orig: RuleMap, p: Progress)
  {
    match p
    case Done(s', j') =>
      LeadsBack(s', j', orig) && Reflects(s, s', desired) &&
      (forall k :: Mentions(j', k) ==> Mentions(journal, k) || HasId(desired, k))
    case Stuck(s', j', rule, how) => StoppedWell(s', j', orig, how) && rule in desired
  }

  /** Every prefix of the snapshot that was applied can be taken back. */
  lemma {:induction false} ApplyDesiredFacts(net: Net, s: State, desired: seq<Rule>, journal: seq<Undo>, orig: RuleMap, quiet: bool)
    requires LeadsBack(s, journal, orig) && Prevalidated(desired) && Quiet(net, quiet)
    requires forall i :: 0 <= i < |desired| ==> !Mentions(journal, desired[i].ruleId)
    ensures var p := ApplyDesired(net, s, desired, journal);
      DesiredOutcome(s, desired, journal, orig, p) && C.Grows(s.collector, p.state.collector, quiet)
    decreases |desired|
  {
    hide Inv, C.Grows, Quiet, Standard, Valid, ApplyOne, StepOk, Journals, JournalOk, RevertAll, RulesOf, Mentions, Reflects;
    if desired == [] {
      GrowsItself(s, quiet);
      ReflectsNothing(s);
    } else {
      var rule, rest := desired[0], desired[1..];
      var a := ApplyOne(net, s, rule);
      ApplyOneFacts(net, s, rule, quiet);
      if a.Applied? {
        JournalExtended(s, a.state, rule.ruleId, journal, a.undo, orig);
        forall i | 0 <= i < |rest| ensures !Mentions(Journaled(journal, a.undo), rest[i].ruleId) {
          assert rest[i] == desired[i + 1];
        }
        ApplyDesiredFacts(net, a.state, rest, Journaled(journal, a.undo), orig, quiet);
        var p := ApplyDesired(net, a.state, rest, Journaled(journal, a.undo));
        C.GrowsTransitive(s.collector, a.state.collector, p.state.collector, quiet);
        if p.Done? { ReflectsCons(s, a.state, p.state, desired); MentionsCons(desired, rest); }
      } else {
        BrokenStops(s, a.state, rule.ruleId, journal, orig, a.how);
      }
    }
  }

  lemma MentionsCons(desired: seq<Rule>, rest: seq<Rule>)
    requires desired != [] && rest == desired[1..]
    ensures HasId(desired, desired[0].ruleId)
    ensures forall k :: HasId(rest, k) ==> HasId(desired, k)
  {
    assert desired[0].ruleId == desired[0].ruleId;
    forall k | HasId(rest, k) ensures HasId(desired, k) {
      var i :| 0 <= i < |rest| && rest[i].ruleId == k;
      assert desired[i + 1].ruleId == k;
    }
  }

  lemma ReflectsNothing(s: State)
    ensures Reflects(s, s, [])
  {
  }

  // ---------- Replace-all removals ----------

  lemma RemoveRunningFacts(s: State, id: string, quiet: bool)
    requires Inv(s) && id in s.running
    ensures var s' := RemoveRunning(s, id);
      && Touches(s, s', id, quiet)
      && s'.running == s.running - {id}
      && Journals(s, s', id, Some(StartAgain(s.running[id].rule)))
  {
    hide Inv, Runnable, KeyOf, C.Grows, C.RemoveRule, StopRule;
    RunningHaveCounters(s);
    RunnableIsStandard(s.running[id].rule);
    var s1 := StopRule(s, id);
    StopTouches(s, id, quiet);
    RunningHaveCounters(s1);
    CollectorOk(s1);
    RemoveRuleKeeps(s1, id);
    C.RemoveRuleFacts(s1.collector, id);
    SameRuntime(s1, RemoveRunning(s, id));
    GrowsQuiet(s1.collector, C.RemoveRule(s1.collector, id), quiet);
    TouchesTransitive(s, s1, RemoveRunning(s, id), id, quiet);
  }

  lemma CollectorOk(s: State)
    requires Inv(s)
    ensures C.Ok(s.collector)
  {
  }

  lemma RemoveRuleKeeps(s: State, id: string)
    requires id !in s.running && forall k :: k in s.running ==> k in s.collector.counters
    ensures KeepsCounters(s, C.RemoveRule(s.collector, id))
  {
  }

  lemma GrowsQuiet(c0: C.State, c: C.State, quiet: bool)
    requires C.Grows(c0, c, true)
    ensures C.Grows(c0, c, quiet)
  {
  }

  function IdSet(ids: seq<string>): set<string> { set i | 0 <= i < |ids| :: ids[i] }

  lemma IdSetCons(ids: seq<string>)
    requires ids != []
    ensures IdSet(ids) == {ids[0]} + IdSet(ids[1..])
  {
    forall i | 0 < i < |ids| ensures ids[i] in IdSet(ids[1..]) { assert ids[i] == ids[1..][i - 1]; }
    forall i | 0 <= i < |ids| - 1 ensures ids[1..][i] in IdSet(ids) { assert ids[1..][i] == ids[i + 1]; }
  }

  lemma {:induction false} RemoveAllFacts(s: State, ids: seq<string>, journal: seq<Undo>, orig: RuleMap, quiet: bool)
    requires LeadsBack(s, journal, orig)
    requires forall i :: 0 <= i < |ids| ==> ids[i] in s.running && !Mentions(journal, ids[i])
    requires forall i, j :: 0 <= i < j < |ids| ==> ids[i] != ids[j]
    ensures var p := RemoveAll(s, ids, journal);
      && p.Done? && LeadsBack(p.state, p.journal, orig)
      && C.Grows(s.collector, p.state.collector, quiet)
      && p.state.running == s.running - IdSet(ids)
    decreases |ids|
  {
    hide Inv, C.Grows, StepOk, Journals, JournalOk, RevertAll, RulesOf, Mentions, RemoveRunning;
    if ids == [] {
      GrowsItself(s, quiet);
    } else {
      var id, rest := ids[0], ids[1..];
      var s1 := RemoveRunning(s, id);
      RemoveRunningFacts(s, id, quiet);
      JournalExtended(s, s1, id, journal, Some(StartAgain(s.running[id].rule)), orig);
      var j1 := journal + [StartAgain(s.running[id].rule)];
      forall i | 0 <= i < |rest| ensures rest[i] in s1.running && !Mentions(j1, rest[i]) { assert rest[i] == ids[i + 1]; }
      RemoveAllFacts(s1, rest, j1, orig, quiet);
      C.GrowsTransitive(s.collector, s1.collector, RemoveAll(s1, rest, j1).state.collector, quiet);
      IdSetCons(ids);
    }
  }

  lemma {:induction false} ForgetAllFacts(s: State, ids: seq<string>, quiet: bool)
    requires Inv(s) && forall i :: 0 <= i < |ids| ==> ids[i] !in s.running
    ensures Inv(s.(collector := ForgetAll(s.collector, ids)))
    ensures C.Grows(s.collector, ForgetAll(s.collector, ids), quiet)
    decreases |ids|
  {
    hide Inv, C.Grows, C.RemoveRule;
    if ids == [] {
      GrowsItself(s, quiet);
    } else {
      var s1 := s.(collector := C.RemoveRule(s.collector, ids[0]));
      RunningHaveCounters(s);
      CollectorOk(s);
      RemoveRuleKeeps(s, ids[0]);
      C.RemoveRuleFacts(s.collector, ids[0]);
      SameRuntime(s, s1);
      GrowsQuiet(s.collector, s1.collector, quiet);
      ForgetAllFacts(s1, ids[1..], quiet);
      C.GrowsTransitive(s.collector, s1.collector, ForgetAll(s1.collector, ids[1..]), quiet);
    }
  }
}

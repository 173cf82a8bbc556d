/** Preparing a draft's revision fields, and forecasting what an apply will do
    to the runtime. */
module RuleDiff {
  import opened Wrappers
  import opened Rules
  import M = ManagerModel
  import I = ManagerInvariant
  import T = ManagerTransaction
  import R = ManagerRollback
  import Y = ManagerTotality
  import F = ManagerForecast

  function WithoutHistory(r: Rule): Rule { r.(revision := 0, createdTime := 0, updatedTime := 0) }

  /** The same configuration, revision and timestamps aside. */
  predicate RuleConfigEqual(left: Rule, right: Rule)
  {
    WithoutHistory(Standardize(left)) == WithoutHistory(Standardize(right))
  }

  /** Rules by id; a later rule replaces an earlier one of the same id. */
  function ById(rules: seq<Rule>): map<string, Rule>
  {
    if rules == [] then map[] else ById(rules[..|rules| - 1])[rules[|rules| - 1].ruleId := rules[|rules| - 1]]
  }

  method IndexById(rules: seq<Rule>) returns (byId: map<string, Rule>)
    ensures byId == ById(rules)
  {
    byId := map[];
    for i := 0 to |rules|
      invariant byId == ById(rules[..i])
    {
      assert rules[..i + 1][..i] == rules[..i];
      byId := byId[rules[i].ruleId := rules[i]];
    }
    assert rules[..|rules|] == rules;
  }

  // ---------- Revisions ----------

  function Prepared(byId: map<string, Rule>, raw: Rule, now: int): Rule
  {
    var incoming := Standardize(raw);
    if incoming.ruleId !in byId then incoming.(revision := 1, createdTime := now, updatedTime := now)
    else
      var previous := byId[incoming.ruleId];
      if RuleConfigEqual(previous, WithoutHistory(incoming)) then
        incoming.(revision := previous.revision, createdTime := previous.createdTime, updatedTime := previous.updatedTime)
      else
        incoming.(revision := Max(Wrap64(previous.revision + 1), 1),
                  createdTime := if previous.createdTime == 0 then now else previous.createdTime,
                  updatedTime := now)
  }

  /** The draft with revision, creation and update times decided from the current rules. */
  method PrepareManagedRules(current: seq<Rule>, desired: seq<Rule>, now: int) returns (result: seq<Rule>)
    ensures |result| == |desired|
    ensures forall i :: 0 <= i < |desired| ==> result[i] == Prepared(ById(current), desired[i], now)
  {
    hide RuleConfigEqual, Standardize, Wrap64;
    var byId := IndexById(current);
    result := [];
    for i := 0 to |desired|
      invariant |result| == i && forall j :: 0 <= j < i ==> result[j] == Prepared(byId, desired[j], now)
    {
      var incoming := WithoutHistory(Standardize(desired[i]));
      if incoming.ruleId !in byId {
        incoming := incoming.(revision := 1, createdTime := now, updatedTime := now);
      } else {
        var previous := byId[incoming.ruleId];
        if RuleConfigEqual(previous, incoming) {
          incoming := incoming.(revision := previous.revision, createdTime := previous.createdTime, updatedTime := previous.updatedTime);
        } else {
          var revision := Wrap64(previous.revision + 1);
          if revision < 1 { revision := 1; }
          incoming := incoming.(revision := revision,
                                createdTime := if previous.createdTime == 0 then now else previous.createdTime,
                                updatedTime := now);
        }
      }
      result := result + [incoming];
    }
  }

  /** A client cannot forge history: what it sends in the history fields is ignored. */
  lemma HistoryIsNotTaken(byId: map<string, Rule>, raw: Rule, now: int, revision: int, created: int, updated: int)
    ensures Prepared(byId, raw.(revision := revision, createdTime := created, updatedTime := updated), now) == Prepared(byId, raw, now)
  {
    var forged := raw.(revision := revision, createdTime := created, updatedTime := updated);
    assert Standardize(forged) == Standardize(raw).(revision := revision, createdTime := created, updatedTime := updated);
  }

  function WithHistory(r: Rule, revision: int, created: int, updated: int): Rule
  {
    r.(revision := revision, createdTime := created, updatedTime := updated)
  }

  /** Preparing changes nothing of a normalised rule but its history. */
  lemma PreparedIs(byId: map<string, Rule>, raw: Rule, now: int)
    ensures var p := Prepared(byId, raw, now);
      p == WithHistory(Standardize(raw), p.revision, p.createdTime, p.updatedTime)
  {
    hide RuleConfigEqual, Standardize;
  }

  lemma OnlyHistoryDiffers(r: Rule, revision: int, created: int, updated: int)
    requires Standardize(r) == r
    ensures var p := WithHistory(r, revision, created, updated);
      RuleConfigEqual(p, WithoutHistory(r)) && WithHistory(r, p.revision, p.createdTime, p.updatedTime) == p
  {
    StandardKeptByHistory(r, revision, created, updated);
    StandardKeptByHistory(r, 0, 0, 0);
  }

  /** Saving what was prepared and sending the same draft again changes no revision and no time. */
  lemma PreparingAgainIsStable(byId: map<string, Rule>, raw: Rule, now: int, later: int)
    ensures var p := Prepared(byId, raw, now);
      Prepared(byId[p.ruleId := p], raw, later) == p
  {
    StandardizeStable(raw);
    PreparedIs(byId, raw, now);
    var p := Prepared(byId, raw, now);
    OnlyHistoryDiffers(Standardize(raw), p.revision, p.createdTime, p.updatedTime);
    PreparedEqual(byId[p.ruleId := p], raw, p, later);
  }

  lemma PreparedEqual(byId: map<string, Rule>, raw: Rule, p: Rule, later: int)
    requires Standardize(raw).ruleId in byId && byId[Standardize(raw).ruleId] == p
    requires RuleConfigEqual(p, WithoutHistory(Standardize(raw)))
    requires WithHistory(Standardize(raw), p.revision, p.createdTime, p.updatedTime) == p
    ensures Prepared(byId, raw, later) == p
  {
    hide RuleConfigEqual, Standardize;
  }

  lemma StandardKeptByHistory(r: Rule, revision: int, created: int, updated: int)
    requires Standardize(r) == r
    ensures var h := r.(revision := revision, createdTime := created, updatedTime := updated);
      Standardize(h) == h
  {
  }

  // ---------- Forecast ----------

  datatype ConfigAction = Add | Delete | Update
  datatype RuntimeAction = Start | Remove | Stop | Restart | Nothing
  datatype Item = Item(ruleId: string, config: ConfigAction, runtime: RuntimeAction)

  /** The forecast for one rule id; no item when nothing about it changes. */
  function DiffItem(id: string, before: Option<Rule>, after: Option<Rule>): Option<Item>
    requires before.Some? || after.Some?
  {
    if before.None? then Some(Item(id, Add, if after.value.enabled then Start else Nothing))
    else if after.None? then Some(Item(id, Delete, if before.value.enabled then Remove else Nothing))
    else if RuleConfigEqual(before.value, after.value) then None
    else Some(Item(id, Update,
      if before.value.enabled && !after.value.enabled then Stop
      else if !before.value.enabled && after.value.enabled then Start
      else if before.value.enabled && after.value.enabled && !RuntimeEqual(before.value, after.value) then Restart
      else Nothing))
  }

  function Lookup(rules: map<string, Rule>, id: string): Option<Rule>
  {
    if id in rules then Some(rules[id]) else None
  }

  /** Exactly the changes of these ids, one item each. */
  predicate Lists(diff: seq<Item>, before: map<string, Rule>, after: map<string, Rule>, ids: set<string>)
    requires ids <= before.Keys + after.Keys
  {
    && (forall id :: id in ids && DiffItem(id, Lookup(before, id), Lookup(after, id)).Some? ==>
        DiffItem(id, Lookup(before, id), Lookup(after, id)).value in diff)
    && (forall i :: 0 <= i < |diff| ==>
        diff[i].ruleId in ids && DiffItem(diff[i].ruleId, Lookup(before, diff[i].ruleId), Lookup(after, diff[i].ruleId)) == Some(diff[i]))
    && (forall i, j :: 0 <= i < j < |diff| ==> diff[i].ruleId != diff[j].ruleId)
  }

  lemma ItemNamesItsRule(id: string, before: Option<Rule>, after: Option<Rule>)
    requires before.Some? || after.Some?
    ensures DiffItem(id, before, after).Some? ==> DiffItem(id, before, after).value.ruleId == id
  {
  }

  lemma ListsOneMore(diff: seq<Item>, before: map<string, Rule>, after: map<string, Rule>, ids: set<string>, id: string)
    requires ids <= before.Keys + after.Keys && Lists(diff, before, after, ids) && id in before.Keys + after.Keys && id !in ids
    ensures var item := DiffItem(id, Lookup(before, id), Lookup(after, id));
      Lists(if item.Some? then diff + [item.value] else diff, before, after, ids + {id})
  {
    ItemNamesItsRule(id, Lookup(before, id), Lookup(after, id));
    hide DiffItem;
  }

  /** One item per changed id, in whatever order the ids are walked. */
  method DiffConfiguredRules(current: seq<Rule>, desired: seq<Rule>) returns (diff: seq<Item>)
    ensures Lists(diff, ById(current), ById(desired), ById(current).Keys + ById(desired).Keys)
  {
    hide DiffItem, Lists;
    var before := IndexById(current);
    var after := IndexById(desired);
    var ids := before.Keys + after.Keys;
    diff := [];
    ghost var done: set<string> := {};
    ListsNone(before, after);
    while ids != {}
      invariant done + ids == before.Keys + after.Keys && done !! ids
      invariant Lists(diff, before, after, done)
      decreases ids
    {
      var id :| id in ids;
      ListsOneMore(diff, before, after, done, id);
      var item := DiffItem(id, Lookup(before, id), Lookup(after, id));
      if item.Some? { diff := diff + [item.value]; }
      ids, done := ids - {id}, done + {id};
    }
  }

  lemma ListsNone(before: map<string, Rule>, after: map<string, Rule>)
    ensures Lists([], before, after, {})
  {
  }

  // ---------- The forecast comes true ----------

  lemma {:induction false} ByIdLists(rules: seq<Rule>, id: string)
    requires forall i, j :: 0 <= i < j < |rules| ==> rules[i].ruleId != rules[j].ruleId
    ensures id in ById(rules) <==> T.HasId(rules, id)
    ensures id in ById(rules) ==> ById(rules)[id].ruleId == id && ById(rules)[id] in rules
    ensures forall i :: 0 <= i < |rules| && rules[i].ruleId == id ==> id in ById(rules) && ById(rules)[id] == rules[i]
  {
    if rules != [] {
      var last := |rules| - 1;
      ByIdLists(rules[..last], id);
      if T.HasId(rules[..last], id) {
        var i :| 0 <= i < last && rules[..last][i].ruleId == id;
        assert rules[i].ruleId == id;
      }
      if T.HasId(rules, id) && rules[last].ruleId != id {
        var i :| 0 <= i < |rules| && rules[i].ruleId == id;
        assert rules[..last][i].ruleId == id;
      }
      forall i | 0 <= i < last ensures rules[i] == rules[..last][i] {}
    }
  }

  /** What the forecast says about a rule, against what happened to its runners. */
  predicate CameTrue(s: M.State, s': M.State, id: string, action: RuntimeAction)
  {
    match action
    case Start => id !in s.running && id in s'.running
    case Stop => id in s.running && id !in s'.running
    case Remove => id in s.running && id !in s'.running
    case Restart => id in s.running && F.Renewed(s, s', id)
    case Nothing => F.Kept(s, s', id) || (id !in s.running && id !in s'.running)
  }

  function Forecast(current: seq<Rule>, desired: seq<Rule>, id: string): RuntimeAction
    requires id in ById(current) || id in ById(desired)
  {
    var item := DiffItem(id, Lookup(ById(current), id), Lookup(ById(desired), id));
    if item.None? then Nothing else item.value.runtime
  }

  lemma ConfigEqualRunsTheSame(a: Rule, b: Rule)
    requires Standard(a) && Standard(b) && Valid(a) && Valid(b) && RuleConfigEqual(a, b)
    ensures a.enabled == b.enabled && RuntimeEqual(a, b)
  {
    assert a == WithoutHistory(a).(revision := a.revision, createdTime := a.createdTime, updatedTime := a.updatedTime);
    assert b == WithoutHistory(a).(revision := b.revision, createdTime := b.createdTime, updatedTime := b.updatedTime);
    RuntimeEqualReflexiveIff(a);
  }

  lemma DesiredFate(net: M.Net, s: M.State, desired: seq<Rule>, removed: seq<string>, forgotten: seq<string>, id: string)
    requires I.Inv(s) && T.Prevalidated(desired) && R.LeftoversOf(net, s, desired, true, removed, forgotten)
    requires R.Transaction(net, s, desired, true, removed, forgotten).Done?
    ensures var s' := R.Transaction(net, s, desired, true, removed, forgotten).state;
      && (id in s'.running <==> id in ById(desired) && ById(desired)[id].enabled)
      && (id in s'.running ==> F.AsForeseen(s, s', ById(desired)[id]))
  {
    hide I.Inv, Standard, Valid, R.Transaction, R.LeftoversOf, F.AsForeseen;
    Y.SuccessRunsExactlyDesired(net, s, desired, removed, forgotten);
    ByIdLists(desired, id);
    var s' := R.Transaction(net, s, desired, true, removed, forgotten).state;
    if id in s'.running {
      assert Y.Wanted(desired, id, s'.running[id].rule);
    }
    if id in ById(desired) && ById(desired)[id].enabled {
      var i :| 0 <= i < |desired| && desired[i] == ById(desired)[id];
      F.TransactionForeseen(net, s, desired, removed, forgotten, i);
      assert Y.Wanted(desired, id, desired[i]);
    }
  }

  /** From a runtime equal to the old configuration, a successful apply of the
      new one starts, stops, removes, restarts and leaves alone exactly the
      rules the forecast names for it. */
  lemma ForecastIsExact(net: M.Net, s: M.State, current: seq<Rule>, desired: seq<Rule>, removed: seq<string>, forgotten: seq<string>, id: string)
    requires I.Inv(s) && T.Prevalidated(current) && T.Prevalidated(desired)
    requires forall k, rule :: (k in s.running && s.running[k].rule == rule) <==> Y.Wanted(current, k, rule)
    requires R.LeftoversOf(net, s, desired, true, removed, forgotten)
    requires R.Transaction(net, s, desired, true, removed, forgotten).Done?
    requires id in ById(current) || id in ById(desired)
    ensures CameTrue(s, R.Transaction(net, s, desired, true, removed, forgotten).state, id, Forecast(current, desired, id))
  {
    hide I.Inv, Standard, Valid, R.Transaction, R.LeftoversOf, RuntimeEqual, RuleConfigEqual, F.Renewed;
    DesiredFate(net, s, desired, removed, forgotten, id);
    ByIdLists(desired, id);
    RunningIsConfigured(s, current, id);
    if id in ById(current) && id in ById(desired) && RuleConfigEqual(ById(current)[id], ById(desired)[id]) {
      ConfigEqualRunsTheSame(ById(current)[id], ById(desired)[id]);
    }
  }

  lemma RunningIsConfigured(s: M.State, current: seq<Rule>, id: string)
    requires T.Prevalidated(current)
    requires forall k, rule :: (k in s.running && s.running[k].rule == rule) <==> Y.Wanted(current, k, rule)
    ensures id in s.running <==> id in ById(current) && ById(current)[id].enabled
    ensures id in s.running ==> s.running[id].rule == ById(current)[id]
    ensures id in ById(current) ==> ById(current)[id] in current
  {
    hide Standard, Valid;
    ByIdLists(current, id);
    if id in s.running { assert Y.Wanted(current, id, s.running[id].rule); }
    if id in ById(current) && ById(current)[id].enabled {
      var i :| 0 <= i < |current| && current[i] == ById(current)[id];
      assert Y.Wanted(current, id, current[i]);
    }
  }
}

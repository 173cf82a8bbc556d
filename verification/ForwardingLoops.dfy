/** The depth-first search that blames the rules of forwarding loops. */
module ForwardingLoops {
  import opened Wrappers
  import opened Rules
  import opened ForwardingGraph

  datatype VisitState = OnPath | Done

  /** One finding: the blamed rule and the loop printed with it, its first rule repeated at the end. */
  datatype Item = Item(ruleId: string, chain: seq<string>)

  /** The search as a value; a node absent from `state` is unvisited, and
      `order` (the nodes in the order they were done) is history. */
  datatype Search = Search(
    state: map<Node, VisitState>, nodes: seq<Node>, rules: seq<LoopRule>,
    reported: set<string>, items: seq<Item>, order: seq<Node>)

  // ---------- Invariant ----------

  predicate Linked(g: Graph, nodes: seq<Node>, rules: seq<LoopRule>)
  {
    && |rules| <= |nodes| <= |rules| + 1
    && (forall i :: 0 <= i < |nodes| ==> nodes[i] in g)
    && (forall i :: 0 <= i < |rules| ==> rules[i] in g[nodes[i]])
    && (forall i :: 0 <= i < |rules| && i + 1 < |nodes| ==> Serving(g, rules[i].target) == Some(nodes[i + 1]))
  }

  predicate PathOk(g: Graph, s: Search)
  {
    && Linked(g, s.nodes, s.rules)
    && Distinct(s.nodes)
    && s.state.Keys <= g.Keys
    && (forall n :: n in s.nodes ==> n in s.state)
    && (forall n :: n in s.state ==> (s.state[n] == OnPath) == (n in s.nodes))
  }

  ghost predicate ItemOk(g: Graph, item: Item)
  {
    exists nodes, rules :: ClosedWalk(g, nodes, rules) && item.chain == Ids(rules) + [Ids(rules)[0]] && item.ruleId in Ids(rules)
  }

  ghost predicate ItemsOk(g: Graph, s: Search)
  {
    && (forall i :: 0 <= i < |s.items| ==> ItemOk(g, s.items[i]) && s.items[i].ruleId in s.reported)
    && (forall i, j :: 0 <= i < j < |s.items| ==> s.items[i].ruleId != s.items[j].ruleId)
    && (forall id :: id in s.reported ==> exists i :: 0 <= i < |s.items| && s.items[i].ruleId == id)
  }

  predicate IsDone(s: Search, n: Node) { n in s.state && s.state[n] == Done }

  ghost predicate CompleteOk(g: Graph, s: Search)
  {
    OneRuleEach(g) ==> forall n :: IsDone(s, n) ==> CyclesFrom(g, n, s.reported)
  }

  predicate OrderOk(g: Graph, s: Search)
  {
    s.reported == {} ==> FinishOrder(g, s.order) && forall n :: n in s.state && s.state[n] == Done ==> n in s.order
  }

  ghost predicate SearchOk(g: Graph, s: Search)
  {
    PathOk(g, s) && ItemsOk(g, s) && CompleteOk(g, s) && OrderOk(g, s)
  }

  /** Nothing visited is forgotten, and what is newly visited is done. */
  predicate Grew(s: Search, t: Search)
  {
    && (forall n :: n in s.state ==> n in t.state && t.state[n] == s.state[n])
    && (forall n :: n in t.state && n !in s.state ==> t.state[n] == Done)
    && s.reported <= t.reported
  }

  /** What handling the first i rules of the node on top of the path has achieved. */
  ghost predicate Handled(g: Graph, s: Search, node: Node, i: nat)
    requires node in g && i <= |g[node]|
  {
    && (s.reported == {} ==> ListenersIn(g, g[node][..i], s.order))
    && (OneRuleEach(g) && i > 0 ==> CyclesFrom(g, node, s.reported))
  }

  predicate ListenersIn(g: Graph, rules: seq<LoopRule>, order: seq<Node>)
  {
    forall j :: 0 <= j < |rules| ==> ListenerIn(g, rules[j], order)
  }

  // ---------- Reporting one cycle ----------

  lemma PathSuffixIsCycle(g: Graph, nodes: seq<Node>, rules: seq<LoopRule>, start: nat)
    requires Linked(g, nodes, rules) && |rules| == |nodes| && start < |nodes|
    requires Serving(g, rules[|rules| - 1].target) == Some(nodes[start])
    ensures ClosedWalk(g, nodes[start..] + [nodes[start]], rules[start..])
  {
    hide Serving;
    var ns, rs := nodes[start..] + [nodes[start]], rules[start..];
    forall i | 0 <= i < |rs|
      ensures ns[i] in g && rs[i] in g[ns[i]] && Serving(g, rs[i].target) == Some(ns[i + 1])
    {
      assert ns[i] == nodes[start + i] && rs[i] == rules[start + i];
    }
  }

  lemma MoreIds(g: Graph, n: Node, ids: set<string>, more: set<string>)
    requires CyclesFrom(g, n, ids) && ids <= more
    ensures CyclesFrom(g, n, more)
  {
    forall nodes, rules | ClosedWalk(g, nodes, rules) && nodes[0] == n ensures Covered(rules, more) {
      assert Covered(rules, ids);
    }
  }

  lemma ReportKeepsComplete(g: Graph, s: Search, t: Search)
    requires CompleteOk(g, s) && s.state == t.state && s.reported <= t.reported
    ensures CompleteOk(g, t)
  {
    hide CyclesFrom, OneRuleEach;
    if OneRuleEach(g) {
      forall n | IsDone(t, n) ensures CyclesFrom(g, n, t.reported) {
        assert IsDone(s, n);
        MoreIds(g, n, s.reported, t.reported);
      }
    }
  }

  /** New findings: one for each id not yet reported, all with the same chain. */
  lemma ReportKeepsItems(g: Graph, s: Search, t: Search, chain: seq<string>, blamed: seq<string>)
    requires ItemsOk(g, s)
    requires |t.items| == |s.items| + |blamed| && t.items[..|s.items|] == s.items
    requires forall k :: 0 <= k < |blamed| ==> t.items[|s.items| + k] == Item(blamed[k], chain)
    requires Distinct(blamed) && forall id :: id in blamed <==> id in t.reported && id !in s.reported
    requires s.reported <= t.reported
    requires forall id :: id in blamed ==> ItemOk(g, Item(id, chain))
    ensures ItemsOk(g, t)
  {
    hide ItemOk;
    var first := |s.items|;
    forall i | 0 <= i < |t.items| ensures ItemOk(g, t.items[i]) && t.items[i].ruleId in t.reported {
      if i < first { assert t.items[i] == s.items[i]; } else { assert t.items[i] == Item(blamed[i - first], chain) && blamed[i - first] in blamed; }
    }
    forall id | id in t.reported ensures exists i :: 0 <= i < |t.items| && t.items[i].ruleId == id {
      if id in s.reported {
        var i :| 0 <= i < |s.items| && s.items[i].ruleId == id;
        assert t.items[i] == s.items[i];
      } else {
        assert id in blamed;
        var k :| 0 <= k < |blamed| && blamed[k] == id;
        assert t.items[first + k].ruleId == id;
      }
    }
    forall i, j | 0 <= i < j < |t.items| ensures t.items[i].ruleId != t.items[j].ruleId {
      if j < first {
        assert t.items[i] == s.items[i] && t.items[j] == s.items[j];
      } else if i < first {
        assert t.items[i] == s.items[i] && t.items[j] == Item(blamed[j - first], chain) && blamed[j - first] in blamed;
      } else {
        assert t.items[i] == Item(blamed[i - first], chain) && t.items[j] == Item(blamed[j - first], chain);
      }
    }
  }

  /** After a report on a path ending at `node`, everything a handled rule should achieve is there. */
  lemma ReportHandles(g: Graph, s: Search, node: Node, start: nat, i: nat)
    requires PathOk(g, s) && |s.rules| == |s.nodes| && start < |s.nodes| && node in g && i <= |g[node]|
    requires s.nodes[|s.nodes| - 1] == node
    requires Serving(g, s.rules[|s.rules| - 1].target) == Some(s.nodes[start])
    requires s.reported != {} && Covered(s.rules[start..], s.reported)
    ensures Handled(g, s, node, i)
  {
    hide Serving, Covered, CyclesFrom, OneRuleEach, ListenersIn, ClosedWalk;
    if OneRuleEach(g) {
      PathSuffixIsCycle(g, s.nodes, s.rules, start);
      var ns := s.nodes[start..] + [s.nodes[start]];
      assert ns[|s.nodes| - 1 - start] == node;
      CycleCyclesFrom(g, ns, s.rules[start..], node, s.reported);
    }
  }

  // ---------- Steps of a visit ----------

  function Pushed(s: Search, node: Node): Search
  {
    s.(state := s.state[node := OnPath], nodes := s.nodes + [node])
  }

  function Popped(s: Search, node: Node): Search
    requires s.nodes != []
  {
    s.(state := s.state[node := Done], nodes := s.nodes[..|s.nodes| - 1], order := s.order + [node])
  }

  predicate Enters(g: Graph, s: Search, node: Node)
  {
    && node in g && |s.rules| == |s.nodes|
    && (s.rules != [] ==> Serving(g, s.rules[|s.rules| - 1].target) == Some(node))
  }

  lemma PushKeeps(g: Graph, s: Search, node: Node)
    requires SearchOk(g, s) && Enters(g, s, node) && node !in s.state
    ensures SearchOk(g, Pushed(s, node)) && Handled(g, Pushed(s, node), node, 0)
  {
    PushKeepsPath(g, s, node);
    PushKeepsRest(g, s, node);
  }

  lemma PushKeepsPath(g: Graph, s: Search, node: Node)
    requires PathOk(g, s) && Enters(g, s, node) && node !in s.state
    ensures PathOk(g, Pushed(s, node))
  {
    hide Serving;
    assert node !in s.nodes;
  }

  lemma PushKeepsRest(g: Graph, s: Search, node: Node)
    requires ItemsOk(g, s) && CompleteOk(g, s) && OrderOk(g, s) && node in g && node !in s.state
    ensures var t := Pushed(s, node); ItemsOk(g, t) && CompleteOk(g, t) && OrderOk(g, t) && Handled(g, t, node, 0)
  {
    hide ItemOk, CyclesFrom, FinishOrder, OneRuleEach;
    var t := Pushed(s, node);
    forall n | OneRuleEach(g) && IsDone(t, n) ensures CyclesFrom(g, n, t.reported) { assert IsDone(s, n); }
  }

  lemma PopKeeps(g: Graph, s: Search, node: Node)
    requires SearchOk(g, s) && |s.nodes| == |s.rules| + 1 && s.nodes[|s.nodes| - 1] == node
    requires node in g && Handled(g, s, node, |g[node]|)
    ensures SearchOk(g, Popped(s, node))
  {
    PopKeepsPath(g, s, node);
    PopKeepsRest(g, s, node);
  }

  lemma PopKeepsPath(g: Graph, s: Search, node: Node)
    requires PathOk(g, s) && |s.nodes| == |s.rules| + 1 && s.nodes[|s.nodes| - 1] == node
    ensures PathOk(g, Popped(s, node))
  {
    hide Serving;
    var t := Popped(s, node);
    assert s.nodes == t.nodes + [node];
    assert node !in t.nodes;
  }

  lemma PopKeepsRest(g: Graph, s: Search, node: Node)
    requires ItemsOk(g, s) && CompleteOk(g, s) && OrderOk(g, s) && s.nodes != []
    requires node in g && Handled(g, s, node, |g[node]|)
    ensures var t := Popped(s, node); ItemsOk(g, t) && CompleteOk(g, t) && OrderOk(g, t)
  {
    hide ItemOk, CyclesFrom, FinishOrder, Serving;
    var t := Popped(s, node);
    if OneRuleEach(g) {
      forall n | IsDone(t, n) ensures CyclesFrom(g, n, t.reported) {
        if n == node { assert |g[node]| == 1; } else { assert IsDone(s, n); }
      }
    }
    if t.reported == {} {
      assert g[node][..|g[node]|] == g[node];
      FinishOrderExtends(g, s.order, node);
    }
  }

  /** The listener of the i-th rule is done (or there is none): one more rule is handled. */
  lemma ListenerDone(g: Graph, s: Search, t: Search, node: Node, i: nat)
    requires node in g && i < |g[node]| && Handled(g, s, node, i) && CompleteOk(g, t) && OrderOk(g, t)
    requires s.reported <= t.reported && (t.reported == {} ==> s.order <= t.order)
    requires var m := Serving(g, g[node][i].target); m.Some? ==> IsDone(t, m.value)
    ensures Handled(g, t, node, i + 1)
  {
    var m := Serving(g, g[node][i].target);
    if OneRuleEach(g) {
      assert |g[node]| == 1;
      if m.None? { DeadEndCyclesFrom(g, node, t.reported); } else { NextCyclesFrom(g, node, t.reported); }
    }
    if t.reported == {} { OneMoreListener(g, s, t, node, i); }
  }

  lemma OneMoreListener(g: Graph, s: Search, t: Search, node: Node, i: nat)
    requires node in g && i < |g[node]| && ListenersIn(g, g[node][..i], s.order) && s.order <= t.order
    requires OrderOk(g, t) && t.reported == {}
    requires var m := Serving(g, g[node][i].target); m.Some? ==> IsDone(t, m.value)
    ensures ListenersIn(g, g[node][..i + 1], t.order)
  {
    hide Serving, FinishOrder;
    var rules := g[node][..i + 1];
    forall j | 0 <= j < |rules|
      ensures ListenerIn(g, rules[j], t.order)
    {
      if j < i {
        assert rules[j] == g[node][..i][j];
        forall n | n in s.order ensures n in t.order {}
      }
    }
  }

  // ---------- The detector ----------

  class LoopDetector {
    const byNode: Graph
    var state: map<Node, VisitState>
    var pathNodes: seq<Node>
    var pathRules: seq<LoopRule>
    var reported: set<string>
    var items: seq<Item>
    ghost var order: seq<Node>

    ghost function View(): Search
      reads this
    {
      Search(state, pathNodes, pathRules, reported, items, order)
    }

    constructor (byNode: Graph)
      ensures this.byNode == byNode && View() == Search(map[], [], [], {}, [], [])
    {
      this.byNode := byNode;
      state, pathNodes, pathRules, reported, items, order := map[], [], [], {}, [], [];
    }

    method PositionOf(entry: Node) returns (start: nat)
      requires entry in pathNodes
      ensures start < |pathNodes| && pathNodes[start] == entry
    {
      start := 0;
      while pathNodes[start] != entry
        invariant 0 <= start < |pathNodes| && entry !in pathNodes[..start]
        decreases |pathNodes| - start
      {
        start := start + 1;
      }
    }

    /** Marks the rules of the path from `start` on as reported. */
    method Blame(start: nat) returns (blamed: seq<string>, chain: seq<string>)
      requires start <= |pathRules|
      modifies this`reported
      ensures chain == Ids(pathRules[start..])
      ensures reported == old(reported) + IdSet(chain)
      ensures Distinct(blamed) && forall id :: id in blamed <==> id in reported && id !in old(reported)
    {
      blamed, chain := [], [];
      for k := start to |pathRules|
        invariant chain == Ids(pathRules[start..k])
        invariant reported == old(reported) + IdSet(chain)
        invariant Distinct(blamed) && forall id :: id in blamed <==> id in reported && id !in old(reported)
      {
        var id := pathRules[k].ruleId;
        if id !in reported {
          reported := reported + {id};
          blamed := blamed + [id];
        }
        chain := chain + [id];
      }
      assert pathRules[start..|pathRules|] == pathRules[start..];
    }

    method AddItems(blamed: seq<string>, chain: seq<string>)
      modifies this`items
      ensures |items| == |old(items)| + |blamed| && items[..|old(items)|] == old(items)
      ensures forall k :: 0 <= k < |blamed| ==> items[|old(items)| + k] == Item(blamed[k], chain)
    {
      for k := 0 to |blamed|
        invariant |items| == |old(items)| + k && items[..|old(items)|] == old(items)
        invariant forall j :: 0 <= j < k ==> items[|old(items)| + j] == Item(blamed[j], chain)
      {
        items := items + [Item(blamed[k], chain)];
      }
    }

    /** Blames the rules of the path from `entry` on that were not blamed before. */
    method ReportCycle(entry: Node) returns (start: nat)
      requires SearchOk(byNode, View()) && |pathRules| == |pathNodes| && entry in pathNodes
      requires Serving(byNode, pathRules[|pathRules| - 1].target) == Some(entry)
      modifies this`reported, this`items
      ensures SearchOk(byNode, View()) && Grew(old(View()), View()) && old(reported) <= reported && reported != {}
      ensures start < |pathNodes| && pathNodes[start] == entry && Covered(pathRules[start..], reported)
    {
      hide SearchOk, Grew, Covered, Serving, IdSet, Distinct;
      ghost var before := View();
      start := PositionOf(entry);
      var blamed, chain := Blame(start);
      ghost var ids := chain;
      if blamed != [] {
        chain := chain + [chain[0]];
        AddItems(blamed, chain);
      }
      Reported(byNode, before, View(), start, ids, blamed);
    }

    /** Visits a node and all it leads to; the path is as before afterwards. */
    method Visit(node: Node)
      requires SearchOk(byNode, View()) && Enters(byNode, View(), node)
      modifies this
      ensures SearchOk(byNode, View()) && Grew(old(View()), View()) && node in state
      ensures pathNodes == old(pathNodes) && pathRules == old(pathRules)
      ensures old(reported) <= reported && (reported == {} ==> old(order) <= order)
      decreases byNode.Keys - state.Keys, 0
    {
      hide SearchOk, Grew, Enters, Handling;
      ghost var before := View();
      EntersFacts(byNode, before, node);
      if node in state { return; }
      StartHandling(byNode, before, node);
      state, pathNodes := state[node := OnPath], pathNodes + [node];
      for i := 0 to |byNode[node]|
        invariant Handling(byNode, before, View(), node, i)
        invariant before.reported <= reported && (reported == {} ==> before.order <= order)
      {
        FewerUnvisited(byNode, before, View(), node, i);
        HandleRule(node, i, before);
      }
      FinishHandling(byNode, before, View(), node);
      pathNodes := pathNodes[..|pathNodes| - 1];
      state := state[node := Done];
      order := order + [node];
    }

    /** Follows the i-th rule of the node on top of the path. */
    method HandleRule(node: Node, i: nat, ghost before: Search)
      requires node in byNode && node !in before.state && i < |byNode[node]| && Handling(byNode, before, View(), node, i)
      modifies this
      ensures Handling(byNode, before, View(), node, i + 1)
      ensures old(reported) <= reported && (reported == {} ==> old(order) <= order)
      decreases byNode.Keys - state.Keys, 1
    {
      hide SearchOk, Handling, Enters, Grew, Covered, Serving, IsDone;
      ghost var mid := View();
      var rule := byNode[node][i];
      RulePushed(byNode, before, mid, node, i);
      pathRules := pathRules + [rule];
      var listener := Serving(byNode, rule.target);
      if listener.None? {
        GrewRefl(View());
        Followed(byNode, before, mid, View(), node, i);
      } else if listener.value in state && state[listener.value] == OnPath {
        var start := ReportCycle(listener.value);
        FollowedBack(byNode, before, mid, View(), node, i, start);
      } else {
        ghost var pushed := View();
        Visit(listener.value);
        VisitedIsDone(pushed, View(), listener.value);
        Followed(byNode, before, mid, View(), node, i);
      }
      pathRules := pathRules[..|pathRules| - 1];
    }
  }

  // ---------- Steps of following one rule ----------

  lemma RulePushed(g: Graph, before: Search, mid: Search, node: Node, i: nat)
    requires node in g && i < |g[node]| && Handling(g, before, mid, node, i)
    ensures var t := mid.(rules := mid.rules + [g[node][i]]);
      && SearchOk(g, t) && |t.rules| == |t.nodes|
      && var l := Serving(g, g[node][i].target);
         l.Some? ==> (Enters(g, t, l.value) && (l.value in t.state && t.state[l.value] == OnPath ==> l.value in t.nodes))
  {
    hide Serving, Handled, ItemsOk, CompleteOk, OrderOk;
    var t := mid.(rules := mid.rules + [g[node][i]]);
    RestIgnoresRules(g, mid, t);
    var l := Serving(g, g[node][i].target);
    if l.Some? { ServingListens(g, g[node][i].target); }
  }

  lemma ServingListens(g: Graph, target: Node)
    requires Serving(g, target).Some?
    ensures Serving(g, target).value in g
  {
  }

  lemma RestIgnoresRules(g: Graph, s: Search, t: Search)
    requires ItemsOk(g, s) && CompleteOk(g, s) && OrderOk(g, s) && t == s.(rules := t.rules)
    ensures ItemsOk(g, t) && CompleteOk(g, t) && OrderOk(g, t)
  {
    hide ItemOk, CyclesFrom, OneRuleEach, FinishOrder;
    if OneRuleEach(g) {
      forall n | IsDone(t, n) ensures CyclesFrom(g, n, t.reported) { assert IsDone(s, n); }
    }
  }

  /** The state after a rule of `node` was followed, before it is popped from the path. */
  predicate After(mid: Search, v: Search, rule: LoopRule)
  {
    Grew(mid.(rules := mid.rules + [rule]), v) && v.nodes == mid.nodes && v.rules == mid.rules + [rule] && (v.reported == {} ==> mid.order <= v.order)
  }

  lemma RulePopped(g: Graph, before: Search, mid: Search, v: Search, node: Node, i: nat)
    requires node in g && i < |g[node]| && Handling(g, before, mid, node, i)
    requires SearchOk(g, v) && After(mid, v, g[node][i])
    ensures var t := v.(rules := v.rules[..|v.rules| - 1]);
      && SearchOk(g, t) && Grew(Pushed(before, node), t) && t.nodes == mid.nodes && t.rules == mid.rules
  {
    hide Serving, Handled, ItemsOk, CompleteOk, OrderOk, Grew;
    var t := v.(rules := v.rules[..|v.rules| - 1]);
    assert t.rules == mid.rules;
    RestIgnoresRules(g, v, t);
    GrewOn(Pushed(before, node), mid, mid.(rules := v.rules), v, t);
  }

  lemma GrewOn(a: Search, b: Search, b': Search, c: Search, d: Search)
    requires Grew(a, b) && b' == b.(rules := b'.rules) && Grew(b', c) && d == c.(rules := d.rules)
    ensures Grew(a, d)
  {
  }

  lemma Followed(g: Graph, before: Search, mid: Search, v: Search, node: Node, i: nat)
    requires node in g && i < |g[node]| && Handling(g, before, mid, node, i)
    requires SearchOk(g, v) && After(mid, v, g[node][i])
    requires var l := Serving(g, g[node][i].target); l.Some? ==> IsDone(v, l.value)
    ensures v.rules != [] && Handling(g, before, v.(rules := v.rules[..|v.rules| - 1]), node, i + 1)
  {
    hide Serving, Handled, SearchOk, Grew;
    var t := v.(rules := v.rules[..|v.rules| - 1]);
    RulePopped(g, before, mid, v, node, i);
    Parts(g, t);
    SubsetOfGrew(mid.(rules := v.rules), v);
    ListenerDone(g, mid, t, node, i);
  }

  lemma VisitedIsDone(s: Search, t: Search, n: Node)
    requires Grew(s, t) && n in t.state && (n in s.state ==> s.state[n] == Done)
    ensures IsDone(t, n)
  {
  }

  lemma GrewRefl(s: Search)
    ensures Grew(s, s)
  {
  }

  lemma Parts(g: Graph, s: Search)
    requires SearchOk(g, s)
    ensures PathOk(g, s) && CompleteOk(g, s) && OrderOk(g, s)
  {
  }

  lemma SubsetOfGrew(s: Search, t: Search)
    requires Grew(s, t)
    ensures s.reported <= t.reported
  {
  }

  lemma FollowedBack(g: Graph, before: Search, mid: Search, v: Search, node: Node, i: nat, start: nat)
    requires node in g && i < |g[node]| && Handling(g, before, mid, node, i)
    requires SearchOk(g, v) && After(mid, v, g[node][i])
    requires start < |v.nodes| && Serving(g, g[node][i].target) == Some(v.nodes[start])
    requires v.reported != {} && |v.rules| == |v.nodes| && Covered(v.rules[start..], v.reported)
    ensures v.rules != [] && Handling(g, before, v.(rules := v.rules[..|v.rules| - 1]), node, i + 1)
  {
    hide Serving, Handled, SearchOk, Grew, Covered;
    RulePopped(g, before, mid, v, node, i);
    Parts(g, v);
    ReportHandles(g, v, node, start, i + 1);
    HandledIgnoresRules(g, v, v.(rules := v.rules[..|v.rules| - 1]), node, i + 1);
  }

  lemma HandledIgnoresRules(g: Graph, s: Search, t: Search, node: Node, i: nat)
    requires node in g && i <= |g[node]| && Handled(g, s, node, i) && t == s.(rules := t.rules)
    ensures Handled(g, t, node, i)
  {
  }

  /** What the search knows between two rules of `node`, the node on top of the path. */
  ghost predicate Handling(g: Graph, s: Search, t: Search, node: Node, i: nat)
    requires node in g && i <= |g[node]|
  {
    && SearchOk(g, t) && Grew(Pushed(s, node), t) && Handled(g, t, node, i)
    && t.nodes == s.nodes + [node] && t.rules == s.rules && |s.rules| == |s.nodes|
  }

  lemma EntersFacts(g: Graph, s: Search, node: Node)
    requires SearchOk(g, s) && Enters(g, s, node)
    ensures node in g && s.state.Keys <= g.Keys && Grew(s, s)
  {
  }

  lemma StartHandling(g: Graph, s: Search, node: Node)
    requires SearchOk(g, s) && Enters(g, s, node) && node !in s.state
    ensures node in g && Handling(g, s, Pushed(s, node), node, 0)
  {
    hide SearchOk, Handled;
    PushKeeps(g, s, node);
  }

  lemma FewerUnvisited(g: Graph, s: Search, t: Search, node: Node, i: nat)
    requires node in g && node !in s.state && i <= |g[node]| && Handling(g, s, t, node, i)
    ensures g.Keys - t.state.Keys < g.Keys - s.state.Keys
  {
    hide SearchOk, Handled;
    assert node in Pushed(s, node).state;
    assert forall n :: n in s.state ==> n in Pushed(s, node).state;
  }

  lemma FinishHandling(g: Graph, s: Search, t: Search, node: Node)
    requires node in g && node !in s.state && Handling(g, s, t, node, |g[node]|) && Enters(g, s, node)
    ensures t.nodes != [] && SearchOk(g, Popped(t, node)) && Grew(s, Popped(t, node))
    ensures Popped(t, node).nodes == s.nodes && t.rules == s.rules
  {
    hide SearchOk, Handled;
    PopKeeps(g, t, node);
    assert forall n :: n in s.state ==> n in Pushed(s, node).state && Pushed(s, node).state[n] == s.state[n];
  }

  function IdSet(ids: seq<string>): set<string> { set id | id in ids }

  lemma Reported(g: Graph, s: Search, t: Search, start: nat, ids: seq<string>, blamed: seq<string>)
    requires SearchOk(g, s) && |s.rules| == |s.nodes| && start < |s.nodes|
    requires Serving(g, s.rules[|s.rules| - 1].target) == Some(s.nodes[start])
    requires ids == Ids(s.rules[start..]) && t == s.(reported := s.reported + IdSet(ids), items := t.items)
    requires Distinct(blamed) && forall id :: id in blamed <==> id in t.reported && id !in s.reported
    requires |t.items| == |s.items| + |blamed| && t.items[..|s.items|] == s.items
    requires forall k :: 0 <= k < |blamed| ==> t.items[|s.items| + k] == Item(blamed[k], ids + [ids[0]])
    ensures SearchOk(g, t) && Grew(s, t) && t.reported != {} && Covered(s.rules[start..], t.reported)
  {
    ReportedItems(g, s, t, start, ids, blamed);
    ReportKeepsComplete(g, s, t);
    IdsCover(s.rules[start..], t.reported);
    assert ids[0] in t.reported;
    assert PathOk(g, t) by { PathIgnoresReports(g, s, t); }
  }

  lemma PathIgnoresReports(g: Graph, s: Search, t: Search)
    requires PathOk(g, s) && (t.state, t.nodes, t.rules) == (s.state, s.nodes, s.rules)
    ensures PathOk(g, t)
  {
    hide Linked;
  }

  lemma IdsCover(rules: seq<LoopRule>, ids: set<string>)
    requires IdSet(Ids(rules)) <= ids
    ensures Covered(rules, ids)
  {
    forall r | r in rules ensures r.ruleId in ids {
      var i :| 0 <= i < |rules| && rules[i] == r;
      assert Ids(rules)[i] in IdSet(Ids(rules));
    }
  }

  lemma ReportedItems(g: Graph, s: Search, t: Search, start: nat, ids: seq<string>, blamed: seq<string>)
    requires PathOk(g, s) && ItemsOk(g, s) && |s.rules| == |s.nodes| && start < |s.nodes|
    requires Serving(g, s.rules[|s.rules| - 1].target) == Some(s.nodes[start])
    requires ids == Ids(s.rules[start..]) && t.reported == s.reported + IdSet(ids)
    requires Distinct(blamed) && forall id :: id in blamed <==> id in t.reported && id !in s.reported
    requires |t.items| == |s.items| + |blamed| && t.items[..|s.items|] == s.items
    requires forall k :: 0 <= k < |blamed| ==> t.items[|s.items| + k] == Item(blamed[k], ids + [ids[0]])
    ensures ItemsOk(g, t)
  {
    hide ItemsOk, ClosedWalk, Linked, Serving;
    var chain := ids + [ids[0]];
    PathSuffixIsCycle(g, s.nodes, s.rules, start);
    forall id | id in blamed ensures ItemOk(g, Item(id, chain)) {
      assert id in Ids(s.rules[start..]);
    }
    ReportKeepsItems(g, s, t, chain, blamed);
  }
}

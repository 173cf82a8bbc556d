/** The graph of rules forwarding into each other's listeners: nodes are
    listening endpoints, each rule an edge to the listener that serves its target. */
module ForwardingGraph {
  import opened Wrappers
  import opened Rules

  type Node = Endpoint

  datatype LoopRule = LoopRule(ruleId: string, target: Node)

  type Graph = map<Node, seq<LoopRule>>

  predicate Listens(g: Graph, n: Node) { n in g && |g[n]| > 0 }

  /** The listener that receives traffic sent to `target`: the exact endpoint before a wildcard. */
  function Serving(g: Graph, target: Node): (listener: Option<Node>)
    ensures listener.Some? ==> Listens(g, listener.value)
  {
    if Listens(g, target) then Some(target)
    else if Listens(g, target.(addr := "")) then Some(target.(addr := ""))
    else None
  }

  /** Following rules[i] from nodes[i] arrives at nodes[i + 1]. */
  predicate Walk(g: Graph, nodes: seq<Node>, rules: seq<LoopRule>)
  {
    && |nodes| == |rules| + 1
    && (forall i :: 0 <= i < |rules| ==> nodes[i] in g && rules[i] in g[nodes[i]])
    && (forall i :: 0 <= i < |rules| ==> Serving(g, rules[i].target) == Some(nodes[i + 1]))
  }

  predicate ClosedWalk(g: Graph, nodes: seq<Node>, rules: seq<LoopRule>)
  {
    Walk(g, nodes, rules) && |rules| > 0 && nodes[0] == nodes[|rules|]
  }

  function Ids(rules: seq<LoopRule>): (ids: seq<string>)
    ensures |ids| == |rules| && forall i :: 0 <= i < |ids| ==> ids[i] == rules[i].ruleId
  {
    seq(|rules|, i requires 0 <= i < |rules| => rules[i].ruleId)
  }

  /** A rule of this id lies on a forwarding cycle. */
  ghost predicate OnCycle(g: Graph, id: string)
  {
    exists nodes, rules :: ClosedWalk(g, nodes, rules) && id in Ids(rules)
  }

  ghost predicate HasCycle(g: Graph) { exists nodes, rules :: ClosedWalk(g, nodes, rules) }

  predicate OneRuleEach(g: Graph) { forall n :: n in g ==> |g[n]| == 1 }

  lemma CycleBlames(g: Graph)
    ensures HasCycle(g) <==> exists id :: OnCycle(g, id)
  {
    if HasCycle(g) {
      var nodes, rules :| ClosedWalk(g, nodes, rules);
      assert Ids(rules)[0] in Ids(rules);
      assert OnCycle(g, Ids(rules)[0]);
    }
  }

  predicate Covered(rules: seq<LoopRule>, ids: set<string>) { forall r :: r in rules ==> r.ruleId in ids }

  /** Every rule on a closed walk from `n` carries one of these ids. */
  ghost predicate CyclesFrom(g: Graph, n: Node, ids: set<string>)
  {
    forall nodes, rules :: ClosedWalk(g, nodes, rules) && nodes[0] == n ==> Covered(rules, ids)
  }

  /** Starting the closed walk one rule later. */
  lemma Rotate(g: Graph, nodes: seq<Node>, rules: seq<LoopRule>)
    requires ClosedWalk(g, nodes, rules)
    ensures ClosedWalk(g, nodes[1..] + [nodes[1]], rules[1..] + [rules[0]])
    ensures (nodes[1..] + [nodes[1]])[0] == nodes[1] && nodes[1] == Serving(g, rules[0].target).value
  {
    var ns, rs := nodes[1..] + [nodes[1]], rules[1..] + [rules[0]];
    forall i | 0 <= i < |rs|
      ensures ns[i] in g && rs[i] in g[ns[i]] && Serving(g, rs[i].target) == Some(ns[i + 1])
    {
      if i < |rules| - 1 { assert rs[i] == rules[i + 1] && ns[i] == nodes[i + 1]; }
    }
  }

  // ---------- One rule per listener ----------

  /** With a single rule at n, the cycles through n are those through its listener. */
  lemma NextCyclesFrom(g: Graph, n: Node, ids: set<string>)
    requires OneRuleEach(g) && n in g && Serving(g, g[n][0].target).Some?
    requires CyclesFrom(g, Serving(g, g[n][0].target).value, ids)
    ensures CyclesFrom(g, n, ids)
  {
    forall nodes, rules | ClosedWalk(g, nodes, rules) && nodes[0] == n
      ensures Covered(rules, ids)
    {
      Rotate(g, nodes, rules);
      var rs := rules[1..] + [rules[0]];
      assert rules[0] == g[n][0];
      assert ClosedWalk(g, nodes[1..] + [nodes[1]], rs);
      forall r | r in rules ensures r in rs {
        var i :| 0 <= i < |rules| && rules[i] == r;
        if i > 0 { assert rs[i - 1] == r; } else { assert rs[|rs| - 1] == r; }
      }
    }
  }

  lemma DeadEndCyclesFrom(g: Graph, n: Node, ids: set<string>)
    requires OneRuleEach(g) && n in g && Serving(g, g[n][0].target).None?
    ensures CyclesFrom(g, n, ids)
  {
  }

  lemma StepsOnCycle(g: Graph, nodes: seq<Node>, rules: seq<LoopRule>, n: Node, r: LoopRule)
    requires OneRuleEach(g) && ClosedWalk(g, nodes, rules) && n in nodes && n in g && r in g[n]
    ensures r in rules && Serving(g, r.target).Some? && Serving(g, r.target).value in nodes
  {
    hide Serving;
    var j :| 0 <= j < |nodes| && nodes[j] == n;
    SameRule(g, nodes, rules, j);
    var k := if j == |rules| then 0 else j;
    assert rules[k] == r;
    assert Serving(g, rules[k].target) == Some(nodes[k + 1]);
  }

  /** With single rules a walk that starts on a cycle never leaves it. */
  lemma {:induction false} StaysOnCycle(g: Graph, nodes: seq<Node>, rules: seq<LoopRule>, ns: seq<Node>, rs: seq<LoopRule>, i: nat)
    requires OneRuleEach(g) && ClosedWalk(g, nodes, rules) && Walk(g, ns, rs) && i < |ns|
    requires ns[0] in nodes
    ensures ns[i] in nodes
    ensures i < |rs| ==> rs[i] in rules
  {
    hide Serving, ClosedWalk, OneRuleEach;
    if i > 0 {
      StaysOnCycle(g, nodes, rules, ns, rs, i - 1);
      StepsOnCycle(g, nodes, rules, ns[i - 1], rs[i - 1]);
    }
    if i < |rs| { StepsOnCycle(g, nodes, rules, ns[i], rs[i]); }
  }

  lemma SameRule(g: Graph, nodes: seq<Node>, rules: seq<LoopRule>, j: nat)
    requires OneRuleEach(g) && ClosedWalk(g, nodes, rules) && j <= |rules|
    ensures nodes[j] in g && g[nodes[j]][0] in rules
    ensures rules[if j == |rules| then 0 else j] == g[nodes[j]][0]
  {
    hide Serving;
    var k := if j == |rules| then 0 else j;
    assert nodes[k] == nodes[j] && rules[k] in g[nodes[k]];
  }

  /** So once the rules of one closed walk carry the ids, all cycles from its nodes do. */
  lemma CycleCyclesFrom(g: Graph, nodes: seq<Node>, rules: seq<LoopRule>, n: Node, ids: set<string>)
    requires OneRuleEach(g) && ClosedWalk(g, nodes, rules) && n in nodes
    requires Covered(rules, ids)
    ensures CyclesFrom(g, n, ids)
  {
    forall ns, rs | ClosedWalk(g, ns, rs) && ns[0] == n
      ensures Covered(rs, ids)
    {
      forall r | r in rs ensures r in rules {
        var i :| 0 <= i < |rs| && rs[i] == r;
        StaysOnCycle(g, nodes, rules, ns, rs, i);
      }
    }
  }

  // ---------- Finish order ----------

  /** Every node of the order has all its listeners earlier in it. */
  predicate FinishOrder(g: Graph, order: seq<Node>)
  {
    forall i :: 0 <= i < |order| ==> FinishedAfterListeners(g, order, i)
  }

  predicate FinishedAfterListeners(g: Graph, order: seq<Node>, i: nat)
    requires i < |order|
  {
    order[i] in g && forall r :: r in g[order[i]] ==> ListenerIn(g, r, order[..i])
  }

  predicate ListenerIn(g: Graph, r: LoopRule, nodes: seq<Node>)
  {
    var m := Serving(g, r.target);
    m.Some? ==> m.value in nodes
  }

  lemma FinishOrderExtends(g: Graph, order: seq<Node>, n: Node)
    requires FinishOrder(g, order) && n in g
    requires forall r :: r in g[n] ==> ListenerIn(g, r, order)
    ensures FinishOrder(g, order + [n])
  {
    hide ListenerIn;
    var longer := order + [n];
    forall i | 0 <= i < |longer| ensures FinishedAfterListeners(g, longer, i) {
      if i < |order| {
        assert FinishedAfterListeners(g, order, i);
        assert longer[..i] == order[..i];
      } else {
        assert longer[..i] == order;
      }
    }
  }

  /** Where a node finished first. */
  function FirstAt(order: seq<Node>, n: Node): (i: nat)
    requires n in order
    ensures i < |order| && order[i] == n && n !in order[..i]
  {
    if order[0] == n then 0 else 1 + FirstAt(order[1..], n)
  }

  /** An order in which all nodes finish after their listeners leaves no cycle. */
  lemma FinishOrderMeansAcyclic(g: Graph, order: seq<Node>)
    requires FinishOrder(g, order) && forall n :: n in g ==> n in order
    ensures !HasCycle(g)
  {
    hide FinishOrder;
    forall nodes, rules ensures !ClosedWalk(g, nodes, rules) {
      if ClosedWalk(g, nodes, rules) {
        NoReturn(g, order, nodes, rules);
      }
    }
  }

  lemma NoReturn(g: Graph, order: seq<Node>, nodes: seq<Node>, rules: seq<LoopRule>)
    requires FinishOrder(g, order) && Walk(g, nodes, rules) && |rules| > 0 && nodes[0] in order
    ensures nodes[|rules|] != nodes[0]
  {
    hide FinishOrder, Walk;
    WalkShape(g, nodes, rules);
    var first := FirstAt(order, nodes[0]);
    var last := Falls(g, order, nodes, rules, |rules|, first);
    assert order[..first][last] == nodes[|rules|];
  }

  lemma WalkShape(g: Graph, nodes: seq<Node>, rules: seq<LoopRule>)
    requires Walk(g, nodes, rules)
    ensures |nodes| == |rules| + 1
  {
  }

  /** Each rule of a walk leads to a lower finish position. */
  lemma {:induction false} Falls(g: Graph, order: seq<Node>, nodes: seq<Node>, rules: seq<LoopRule>, k: nat, from: nat) returns (position: nat)
    requires FinishOrder(g, order) && Walk(g, nodes, rules) && |nodes| == |rules| + 1
    requires from < |order| && k <= |rules| && order[from] == nodes[0]
    ensures position + k <= from && order[position] == nodes[k]
  {
    hide FinishOrder, Walk;
    position := from;
    if k > 0 {
      var before := Falls(g, order, nodes, rules, k - 1, from);
      position := StepDown(g, order, nodes, rules, k - 1, before);
    }
  }

  lemma StepDown(g: Graph, order: seq<Node>, nodes: seq<Node>, rules: seq<LoopRule>, at: nat, from: nat) returns (next: nat)
    requires FinishOrder(g, order) && Walk(g, nodes, rules) && |nodes| == |rules| + 1
    requires from < |order| && at < |rules| && order[from] == nodes[at]
    ensures next < from && order[next] == nodes[at + 1]
  {
    hide Serving, FinishedAfterListeners;
    assert FinishedAfterListeners(g, order, from);
    next := ListenerBefore(g, order, from, rules[at], nodes[at + 1]);
  }

  lemma ListenerBefore(g: Graph, order: seq<Node>, i: nat, r: LoopRule, m: Node) returns (next: nat)
    requires i < |order| && FinishedAfterListeners(g, order, i) && order[i] in g && r in g[order[i]] && Serving(g, r.target) == Some(m)
    ensures next < i && order[next] == m
  {
    hide Serving, FirstAt;
    ListenerIsBefore(g, order, i, r, m);
    next := FirstAt(order[..i], m);
  }

  lemma ListenerIsBefore(g: Graph, order: seq<Node>, i: nat, r: LoopRule, m: Node)
    requires i < |order| && FinishedAfterListeners(g, order, i) && order[i] in g && r in g[order[i]] && Serving(g, r.target) == Some(m)
    ensures m in order[..i]
  {
    hide Serving;
    assert ListenerIn(g, r, order[..i]);
  }
}

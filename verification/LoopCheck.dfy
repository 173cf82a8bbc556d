/** The forwarding-loop check of a whole configuration. */
module LoopCheck {
  import opened Wrappers
  import opened Rules
  import opened ForwardingGraph
  import opened ForwardingLoops

  function ForwardedNetworks(p: Protocol): seq<Network>
  {
    match p
    case TCP => [NetTCP]
    case HTTP => [NetTCP]
    case HTTPS => [NetTCP]
    case UDP => [NetUDP]
    case TCPUDP => [NetTCP, NetUDP]
    case Other(_) => []
  }

  /** The rule takes part in forwarding: enabled and free of validation errors. */
  predicate TakesPart(r: Rule) { r.enabled && Valid(r) }

  function ListenNode(r: Rule, network: Network): Node
  {
    Endpoint(network, CanonicalListenAddr(Standardize(r).listenAddr), r.listenPort)
  }

  function Edge(r: Rule, network: Network): LoopRule
  {
    LoopRule(Standardize(r).ruleId, Endpoint(network, CanonicalListenAddr(Standardize(r).targetAddr), r.targetPort))
  }

  function RulesAt(g: Graph, n: Node): seq<LoopRule> { if n in g then g[n] else [] }

  function WithEdge(g: Graph, n: Node, e: LoopRule): Graph { g[n := RulesAt(g, n) + [e]] }

  function WithRule(g: Graph, r: Rule): Graph
  {
    if !TakesPart(r) then g else WithEdges(g, r, ForwardedNetworks(r.protocol))
  }

  function WithEdges(g: Graph, r: Rule, networks: seq<Network>): Graph
  {
    if networks == [] then g
    else
      var n := |networks| - 1;
      WithEdge(WithEdges(g, r, networks[..n]), ListenNode(r, networks[n]), Edge(r, networks[n]))
  }

  function GraphOf(rules: seq<Rule>): Graph
  {
    if rules == [] then map[] else WithRule(GraphOf(rules[..|rules| - 1]), rules[|rules| - 1])
  }

  // ---------- What the graph says ----------

  predicate Forwards(r: Rule, n: Node, e: LoopRule)
  {
    && TakesPart(r)
    && exists k :: 0 <= k < |ForwardedNetworks(r.protocol)| && ForwardsOn(r, ForwardedNetworks(r.protocol)[k], n, e)
  }

  predicate ForwardsOn(r: Rule, network: Network, n: Node, e: LoopRule)
  {
    n == ListenNode(r, network) && e == Edge(r, network)
  }

  lemma {:induction false} EdgesAdded(g: Graph, r: Rule, networks: seq<Network>, n: Node, e: LoopRule)
    ensures e in RulesAt(WithEdges(g, r, networks), n) <==>
            e in RulesAt(g, n) || exists k :: 0 <= k < |networks| && ForwardsOn(r, networks[k], n, e)
  {
    hide ListenNode, Edge;
    if networks != [] {
      var last := |networks| - 1;
      EdgesAdded(g, r, networks[..last], n, e);
      assert forall k :: 0 <= k < last ==> networks[..last][k] == networks[k];
      if e in RulesAt(WithEdges(g, r, networks), n) && e !in RulesAt(WithEdges(g, r, networks[..last]), n) {
        assert ForwardsOn(r, networks[last], n, e);
      }
    }
  }

  /** The graph holds an edge exactly when some participating rule forwards that way. */
  lemma {:induction false} GraphHasExactly(rules: seq<Rule>, n: Node, e: LoopRule)
    ensures e in RulesAt(GraphOf(rules), n) <==> exists i :: 0 <= i < |rules| && Forwards(rules[i], n, e)
  {
    hide TakesPart, ForwardsOn, WithEdges;
    if rules != [] {
      var last := |rules| - 1;
      GraphHasExactly(rules[..last], n, e);
      EdgesAdded(GraphOf(rules[..last]), rules[last], ForwardedNetworks(rules[last].protocol), n, e);
      assert forall i :: 0 <= i < last ==> rules[..last][i] == rules[i];
      RuleAdds(rules, n, e);
    }
  }

  lemma RuleAdds(rules: seq<Rule>, n: Node, e: LoopRule)
    requires rules != []
    ensures var last := rules[|rules| - 1]; var g := GraphOf(rules[..|rules| - 1]);
      e in RulesAt(GraphOf(rules), n) <==> e in RulesAt(g, n) || Forwards(last, n, e)
  {
    hide TakesPart, ForwardsOn, WithEdges;
    var last, g := rules[|rules| - 1], GraphOf(rules[..|rules| - 1]);
    EdgesAdded(g, last, ForwardedNetworks(last.protocol), n, e);
  }

  // ---------- What a finished search says ----------

  predicate Finished(g: Graph, s: Search) { s.nodes == [] && s.state.Keys == g.Keys }

  /** Blame is sound on every graph, and an item's message spells out a real loop. */
  lemma BlameIsSound(g: Graph, s: Search, id: string)
    requires ItemsOk(g, s) && id in s.reported
    ensures OnCycle(g, id)
  {
    hide ClosedWalk, Ids;
    var i :| 0 <= i < |s.items| && s.items[i].ruleId == id;
    assert ItemOk(g, s.items[i]);
    var nodes, rules :| ClosedWalk(g, nodes, rules) && id in Ids(rules);
  }

  lemma BlameIsComplete(g: Graph, s: Search, id: string)
    requires SearchOk(g, s) && Finished(g, s) && OneRuleEach(g) && OnCycle(g, id)
    ensures id in s.reported
  {
    var nodes, rules :| ClosedWalk(g, nodes, rules) && id in Ids(rules);
    assert IsDone(s, nodes[0]);
    assert CyclesFrom(g, nodes[0], s.reported);
    assert Covered(rules, s.reported);
  }

  lemma SomeBlameIffCycle(g: Graph, s: Search)
    requires SearchOk(g, s) && Finished(g, s)
    ensures s.reported != {} <==> HasCycle(g)
  {
    hide CyclesFrom, Linked, ItemOk, OneRuleEach;
    if s.reported == {} {
      FinishOrderMeansAcyclic(g, s.order);
    } else {
      var id :| id in s.reported;
      BlameIsSound(g, s, id);
      CycleBlames(g);
    }
  }

  ghost predicate Blames(items: seq<Item>, id: string) { exists i :: 0 <= i < |items| && items[i].ruleId == id }

  /** Visits every listener, in whatever order the map yields them. */
  method Detect(byNode: Graph) returns (items: seq<Item>)
    ensures forall i :: 0 <= i < |items| ==> ItemOk(byNode, items[i])
    ensures forall i, j :: 0 <= i < j < |items| ==> items[i].ruleId != items[j].ruleId
    ensures items != [] <==> HasCycle(byNode)
    ensures forall id :: Blames(items, id) ==> OnCycle(byNode, id)
    ensures OneRuleEach(byNode) ==> forall id :: Blames(items, id) <==> OnCycle(byNode, id)
  {
    hide SearchOk, HasCycle, OneRuleEach, OnCycle, Grew;
    var detector := new LoopDetector(byNode);
    StartOk(byNode);
    var rest := byNode.Keys;
    while rest != {}
      invariant rest <= byNode.Keys && byNode.Keys - rest <= detector.state.Keys
      invariant detector.byNode == byNode && fresh(detector)
      invariant SearchOk(byNode, detector.View()) && detector.pathNodes == [] && detector.pathRules == []
      decreases rest
    {
      var node :| node in rest;
      rest := rest - {node};
      ghost var before := detector.View();
      detector.Visit(node);
      assert before.state.Keys <= detector.state.Keys by { StateGrew(before, detector.View()); }
    }
    items := detector.items;
    Conclusion(byNode, detector.View());
  }

  lemma StartOk(g: Graph)
    ensures SearchOk(g, Search(map[], [], [], {}, [], []))
  {
  }

  lemma StateGrew(s: Search, t: Search)
    requires Grew(s, t)
    ensures s.state.Keys <= t.state.Keys
  {
  }

  lemma Conclusion(g: Graph, s: Search)
    requires SearchOk(g, s) && s.nodes == [] && g.Keys <= s.state.Keys
    ensures forall i :: 0 <= i < |s.items| ==> ItemOk(g, s.items[i])
    ensures forall i, j :: 0 <= i < j < |s.items| ==> s.items[i].ruleId != s.items[j].ruleId
    ensures s.items != [] <==> HasCycle(g)
    ensures forall id :: Blames(s.items, id) ==> OnCycle(g, id)
    ensures OneRuleEach(g) ==> forall id :: Blames(s.items, id) <==> OnCycle(g, id)
  {
    hide OnCycle, HasCycle, CyclesFrom, OneRuleEach, ItemOk, FinishOrder, Linked;
    SomeBlameIffCycle(g, s);
    if s.items != [] { assert s.items[0].ruleId in s.reported; }
    forall id ensures Blames(s.items, id) <==> id in s.reported {}
    forall id | id in s.reported ensures OnCycle(g, id) { BlameIsSound(g, s, id); }
    if OneRuleEach(g) {
      forall id | OnCycle(g, id) ensures id in s.reported { BlameIsComplete(g, s, id); }
    }
  }

  method BuildGraph(rules: seq<Rule>) returns (byNode: Graph)
    ensures byNode == GraphOf(rules)
  {
    byNode := map[];
    for i := 0 to |rules|
      invariant byNode == GraphOf(rules[..i])
    {
      assert rules[..i + 1][..i] == rules[..i];
      var rule := Standardize(rules[i]);
      if rules[i].enabled && Valid(rules[i]) {
        ghost var before := byNode;
        var networks := ForwardedNetworks(rule.protocol);
        for k := 0 to |networks|
          invariant byNode == WithEdges(before, rules[i], networks[..k])
        {
          assert networks[..k + 1][..k] == networks[..k];
          var node := Endpoint(networks[k], CanonicalListenAddr(rule.listenAddr), rule.listenPort);
          var target := Endpoint(networks[k], CanonicalListenAddr(rule.targetAddr), rule.targetPort);
          byNode := byNode[node := (if node in byNode then byNode[node] else []) + [LoopRule(rule.ruleId, target)]];
        }
        assert networks[..|networks|] == networks;
      }
    }
    assert rules[..|rules|] == rules;
  }

  /** The check of a configuration: every finding names a rule of a real loop and
      prints that loop, no rule twice; something is found exactly when a loop
      exists; and with one rule per listener the rules found are exactly those on a loop. */
  method CheckForwardingLoops(rules: seq<Rule>) returns (items: seq<Item>)
    ensures forall i :: 0 <= i < |items| ==> ItemOk(GraphOf(rules), items[i])
    ensures forall i, j :: 0 <= i < j < |items| ==> items[i].ruleId != items[j].ruleId
    ensures items != [] <==> HasCycle(GraphOf(rules))
    ensures OneRuleEach(GraphOf(rules)) ==> forall id :: Blames(items, id) <==> OnCycle(GraphOf(rules), id)
  {
    var byNode := BuildGraph(rules);
    items := Detect(byNode);
  }
}

/** The document edits as they are carried out, node by node. */
module ConfigEditor {
  import opened Wrappers
  import opened ConfigYaml
  import opened ConfigCandidate

  lemma {:induction false} SetAtFirst<V>(p: Pairs<V>, key: string, node: Node<V>, i: nat)
    requires i <= |p| && (forall k :: 0 <= k < i ==> p[k].0 != key) && (i < |p| ==> p[i].0 == key)
    ensures Set(p, key, node) == p[..i] + [(key, node)] + (if i < |p| then p[i + 1..] else [])
  {
    if i > 0 {
      SetAtFirst(p[1..], key, node, i - 1);
      assert p[1..][..i - 1] == p[1..i];
      assert [p[0]] + p[1..i] == p[..i];
    }
  }

  /** A mapping node of the document, edited in place. */
  class YamlMapping<V(!new, ==)> {
    var pairs: Pairs<V>

    constructor (pairs: Pairs<V>)
      ensures this.pairs == pairs
    {
      this.pairs := pairs;
    }

    method SetNode(key: string, node: Node<V>)
      modifies this
      ensures pairs == Set(old(pairs), key, node)
    {
      for i := 0 to |pairs|
        invariant pairs == old(pairs)
        invariant forall k :: 0 <= k < i ==> pairs[k].0 != key
      {
        if pairs[i].0 == key {
          SetAtFirst(pairs, key, node, i);
          pairs := pairs[..i] + [(key, node)] + pairs[i + 1..];
          return;
        }
      }
      SetAtFirst(pairs, key, node, |pairs|);
      pairs := pairs + [(key, node)];
    }

    /** Writes the fields that differ. */
    method MergeRule(s: Schema<V>, current: RuleValue<V>, desired: RuleValue<V>)
      requires |s.fields| == |current| == |desired|
      modifies this
      ensures pairs == MergeFields(s, old(pairs), current, desired, |s.fields|)
    {
      for i := 0 to |s.fields|
        invariant pairs == MergeFields(s, old(pairs), current, desired, i)
      {
        if current[i] != desired[i] {
          SetNode(s.fields[i], Leaf(s.written(i, desired[i])));
        }
      }
    }
  }

  /** The rules and the nodes of the source, by id. */
  predicate Indexed<V(!new, ==)>(items: seq<Node<V>>, current: seq<RuleValue<V>>, currentById: map<V, RuleValue<V>>, nodeById: map<V, Node<V>>)
    requires |items| == |current| && forall k :: 0 <= k < |current| ==> |current[k]| > 0
  {
    && currentById.Keys == nodeById.Keys
    && (forall k :: 0 <= k < |current| ==>
        current[k][0] in currentById && currentById[current[k][0]] == current[k] && nodeById[current[k][0]] == items[k])
    && (forall id :: id in currentById ==> FindId(current, id) < |current|)
  }

  method IndexRules<V(!new, ==)>(s: Schema<V>, items: seq<Node<V>>, current: seq<RuleValue<V>>)
      returns (currentById: map<V, RuleValue<V>>, nodeById: map<V, Node<V>>)
    requires AllDecode(s, items) && current == RulesOf(s, items) && WellTyped(s, current) && RulesOk(s, current)
    ensures Indexed(items, current, currentById, nodeById)
  {
    hide RuleOk, Decodes;
    currentById, nodeById := map[], map[];
    for i := 0 to |current|
      invariant currentById.Keys == nodeById.Keys
      invariant forall k :: 0 <= k < i ==>
        current[k][0] in currentById && currentById[current[k][0]] == current[k] && nodeById[current[k][0]] == items[k]
      invariant forall id :: id in currentById ==> exists k :: 0 <= k < i && current[k][0] == id
    {
      currentById := currentById[current[i][0] := current[i]];
      nodeById := nodeById[current[i][0] := items[i]];
    }
  }

  method MergeOneYaml<V(!new, ==)>(s: Schema<V>, ghost items: seq<Node<V>>, ghost current: seq<RuleValue<V>>,
        currentById: map<V, RuleValue<V>>, nodeById: map<V, Node<V>>, rule: RuleValue<V>) returns (merged: Node<V>)
    requires AllDecode(s, items) && |items| == |current| && WellTyped(s, current) && |rule| == |s.fields| > 0
    requires Indexed(items, current, currentById, nodeById)
    ensures merged == MergeOne(s, items, current, rule)
  {
    hide MergeFields, Encode;
    var id := s.std(0, rule[0]);
    ghost var j := FindId(current, id);
    if id !in currentById { return Encode(s, rule); }
    assert current[j][0] == id && Decodes(s, items[j]);
    var node := new YamlMapping(nodeById[id].pairs);
    node.MergeRule(s, currentById[id], rule);
    merged := Mapping(node.pairs);
  }

  method MergeRulesYaml<V(!new, ==)>(s: Schema<V>, items: seq<Node<V>>, current: seq<RuleValue<V>>, desired: seq<RuleValue<V>>)
      returns (r: Option<seq<Node<V>>>)
    requires AllDecode(s, items) && current == RulesOf(s, items) && RulesOk(s, current)
    requires WellTyped(s, current) && WellTyped(s, desired)
    ensures r == MergeAll(s, items, current, desired)
  {
    hide RulesOk, AllDecode, MergeAll, MergeOne, IdTaken, Indexed;
    var currentById, nodeById := IndexRules(s, items, current);
    var merged: seq<Node<V>> := [];
    var seen: set<V> := {};
    MergeNothing(s, items, current, desired);
    for i := 0 to |desired|
      invariant WellTyped(s, desired[..i]) && MergeAll(s, items, current, desired[..i]) == Some(merged)
      invariant forall id :: id in seen <==> IdTaken(s, desired[..i], id)
    {
      var id := s.std(0, desired[i][0]);
      if id in seen {
        MergeStops(s, items, current, desired, i);
        return None;
      }
      TakenNext(s, desired, i);
      MergeNext(s, items, current, desired, i);
      seen := seen + {id};
      var node := MergeOneYaml(s, items, current, currentById, nodeById, desired[i]);
      merged := merged + [node];
    }
    assert desired[..|desired|] == desired;
    r := Some(merged);
  }

  lemma MergeNothing<V(!new)>(s: Schema<V>, items: seq<Node<V>>, current: seq<RuleValue<V>>, desired: seq<RuleValue<V>>)
    requires AllDecode(s, items) && |items| == |current| && WellTyped(s, current) && WellTyped(s, desired)
    ensures MergeAll(s, items, current, desired[..0]) == Some([])
    ensures forall id :: !IdTaken(s, desired[..0], id)
  {
  }

  lemma MergeNext<V(!new)>(s: Schema<V>, items: seq<Node<V>>, current: seq<RuleValue<V>>, desired: seq<RuleValue<V>>, i: nat)
    requires AllDecode(s, items) && |items| == |current| && WellTyped(s, current) && WellTyped(s, desired)
    requires i < |desired| && MergeAll(s, items, current, desired[..i]).Some? && !IdTaken(s, desired[..i], s.std(0, desired[i][0]))
    ensures MergeAll(s, items, current, desired[..i + 1]) ==
            Some(MergeAll(s, items, current, desired[..i]).value + [MergeOne(s, items, current, desired[i])])
  {
    hide MergeOne, IdTaken, AllDecode;
    assert desired[..i + 1][..i] == desired[..i];
  }

  lemma TakenNext<V(!new)>(s: Schema<V>, desired: seq<RuleValue<V>>, i: nat)
    requires WellTyped(s, desired) && i < |desired|
    ensures forall id :: IdTaken(s, desired[..i + 1], id) <==> IdTaken(s, desired[..i], id) || id == s.std(0, desired[i][0])
  {
    forall id ensures IdTaken(s, desired[..i + 1], id) <==> IdTaken(s, desired[..i], id) || id == s.std(0, desired[i][0]) {
      if IdTaken(s, desired[..i], id) {
        var k :| 0 <= k < i && s.std(0, desired[..i][k][0]) == id;
        assert desired[..i + 1][k] == desired[..i][k];
      }
      assert desired[..i + 1][i] == desired[i];
      if IdTaken(s, desired[..i + 1], id) && id != s.std(0, desired[i][0]) {
        var k :| 0 <= k < i + 1 && s.std(0, desired[..i + 1][k][0]) == id;
        assert desired[..i][k] == desired[..i + 1][k];
      }
    }
  }

  /** A refused prefix refuses the whole. */
  lemma {:induction false} MergeStops<V(!new)>(s: Schema<V>, items: seq<Node<V>>, current: seq<RuleValue<V>>, desired: seq<RuleValue<V>>, i: nat)
    requires AllDecode(s, items) && |items| == |current| && WellTyped(s, current) && WellTyped(s, desired)
    requires i < |desired| && IdTaken(s, desired[..i], s.std(0, desired[i][0]))
    ensures MergeAll(s, items, current, desired).None?
  {
    var n := |desired| - 1;
    if i < n {
      assert desired[..n][..i] == desired[..i];
      MergeStops(s, items, current, desired[..n], i);
    }
  }

  method RenderManagedConfig<V(!new, ==)>(s: Schema<V>, top: Pairs<V>, current: Draft<V>, desired: Draft<V>) returns (r: Option<Pairs<V>>)
    requires Parses(s, top) && current == Parsed(s, top) && WellTyped(s, current.rules) && WellTyped(s, desired.rules)
    ensures r == Render(s, top, current, desired)
  {
    hide RuleOk, Decodes, MergeAll, Set;
    if current == desired { return Some(top); }
    var root := new YamlMapping(top);
    if current.rules != desired.rules {
      var node := Lookup(top, RULES_KEY);
      if node.Some? && node.value.Sequence? {
        var merged := MergeRulesYaml(s, node.value.items, current.rules, desired.rules);
        if merged.None? { return None; }
        root.SetNode(RULES_KEY, Sequence(merged.value));
      } else {
        root.SetNode(RULES_KEY, Sequence(EncodeAll(s, desired.rules)));
      }
    }
    if current.udp != desired.udp {
      root.SetNode(UDP_KEY, Number(desired.udp));
    }
    r := Some(root.pairs);
  }

  /** Parses and renders twice; the result is the specified candidate. */
  method Build<V(!new, ==)>(s: Schema<V>, top: Pairs<V>, draft: Draft<V>) returns (r: Option<(Pairs<V>, Draft<V>)>)
    requires Parses(s, top) && WellTyped(s, Parsed(s, top).rules) && WellTyped(s, draft.rules)
    ensures r == BuildCandidate(s, top, draft)
  {
    hide RulesOk, Render, ShapeOk, WellTyped;
    var source := Parsed(s, top);
    var first := RenderManagedConfig(s, top, source, draft);
    if first.None? || !Parses(s, first.value) { return None; }
    ParsedWellTyped(s, first.value);
    var raw := RenderManagedConfig(s, top, source, Parsed(s, first.value));
    if raw.None? || !Parses(s, raw.value) { return None; }
    r := Some((raw.value, Parsed(s, raw.value)));
  }
}

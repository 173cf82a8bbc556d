/** Editing a configuration document: ordered key/value trees, the rules and
    the UDP limit merged into them, and what parsing reads back.

    A managed rule field is a value of type V behind its key. */
module ConfigYaml {
  import opened Wrappers

  const RULES_KEY := "rules"
  const UDP_KEY := "udp_max_sessions"

  datatype Node<V> = Leaf(value: V) | Number(n: int) | Null | Mapping(pairs: seq<(string, Node<V>)>) | Sequence(items: seq<Node<V>>)

  type Pairs<V> = seq<(string, Node<V>)>

  /** A rule as decoded: one value for each managed field; field 0 is its id. */
  type RuleValue<V> = seq<V>

  /** What the editor relies on about rules: field names, the value of an absent
      field, which values encoding leaves out, what decoding makes of a value that
      was encoded, how a field is normalised, which normalised rules are valid,
      and which unmanaged settings the parser accepts. */
  datatype Schema<!V(!new)> = Schema(
    fields: seq<string>, zero: nat -> V, omits: (nat, V) -> bool, written: (nat, V) -> V,
    std: (nat, V) -> V, valid: RuleValue<V> -> bool, restOk: Pairs<V> -> bool)

  ghost predicate SchemaOk<V(!new)>(s: Schema<V>)
  {
    && |s.fields| > 0 && Distinct(s.fields)
    && (forall i: nat, v: V :: s.std(i, s.std(i, v)) == s.std(i, v))
    && (forall i: nat, v: V :: s.std(i, s.written(i, v)) == s.std(i, v))
    && (forall i: nat, v: V :: s.omits(i, v) ==> s.std(i, v) == s.std(i, s.zero(i)))
  }

  // ---------- Mappings ----------

  predicate DistinctKeys<V>(p: Pairs<V>) { forall i, j :: 0 <= i < j < |p| ==> p[i].0 != p[j].0 }

  function Lookup<V>(p: Pairs<V>, key: string): Option<Node<V>>
  {
    if p == [] then None else if p[0].0 == key then Some(p[0].1) else Lookup(p[1..], key)
  }

  /** Replaces the first node under the key, or appends the key. */
  function Set<V>(p: Pairs<V>, key: string, node: Node<V>): Pairs<V>
  {
    if p == [] then [(key, node)]
    else if p[0].0 == key then [(key, node)] + p[1..]
    else [p[0]] + Set(p[1..], key, node)
  }

  /** The pairs under other keys, in order. */
  function Others<V>(p: Pairs<V>, known: seq<string>): Pairs<V>
  {
    if p == [] then [] else (if p[0].0 in known then [] else [p[0]]) + Others(p[1..], known)
  }

  lemma {:induction false} LookupSet<V>(p: Pairs<V>, key: string, node: Node<V>, other: string)
    ensures Lookup(Set(p, key, node), other) == if other == key then Some(node) else Lookup(p, other)
  {
    if p != [] && p[0].0 != key { LookupSet(p[1..], key, node, other); }
  }

  lemma {:induction false} OthersSet<V>(p: Pairs<V>, key: string, node: Node<V>, known: seq<string>)
    requires key in known
    ensures Others(Set(p, key, node), known) == Others(p, known)
  {
    if p != [] && p[0].0 != key { OthersSet(p[1..], key, node, known); }
  }

  predicate HasKey<V>(p: Pairs<V>, key: string) { exists i :: 0 <= i < |p| && p[i].0 == key }

  lemma {:induction false} KeysAfterSet<V>(p: Pairs<V>, key: string, node: Node<V>, other: string)
    ensures HasKey(Set(p, key, node), other) <==> other == key || HasKey(p, other)
  {
    var q := Set(p, key, node);
    if p == [] {
      assert q[0].0 == key;
    } else if p[0].0 == key {
      assert q[0].0 == key;
      if HasKey(p, other) { var i :| 0 <= i < |p| && p[i].0 == other; assert q[i].0 == other; }
    } else {
      KeysAfterSet(p[1..], key, node, other);
      var r := Set(p[1..], key, node);
      assert q == [p[0]] + r;
      if HasKey(p, other) {
        var i :| 0 <= i < |p| && p[i].0 == other;
        if i == 0 { assert q[0].0 == other; } else { assert p[1..][i - 1].0 == other; }
      }
      if HasKey(r, other) { var i :| 0 <= i < |r| && r[i].0 == other; assert q[i + 1].0 == other; }
      if HasKey(q, other) {
        var i :| 0 <= i < |q| && q[i].0 == other;
        if i == 0 { assert p[0].0 == other; } else { assert r[i - 1].0 == other; }
      }
      if HasKey(p[1..], other) { var i :| 0 <= i < |p[1..]| && p[1..][i].0 == other; assert p[i + 1].0 == other; }
    }
  }

  lemma {:induction false} SetKeepsDistinct<V>(p: Pairs<V>, key: string, node: Node<V>)
    requires DistinctKeys(p)
    ensures DistinctKeys(Set(p, key, node))
  {
    if p != [] && p[0].0 != key {
      SetKeepsDistinct(p[1..], key, node);
      var r := Set(p[1..], key, node);
      forall i | 0 <= i < |r| ensures r[i].0 != p[0].0 {
        assert HasKey(r, r[i].0);
        KeysAfterSet(p[1..], key, node, r[i].0);
        if r[i].0 != key {
          var j :| 0 <= j < |p[1..]| && p[1..][j].0 == r[i].0;
          assert p[j + 1].0 == r[i].0;
        }
      }
    }
  }

  // ---------- Decoding and encoding one rule ----------

  predicate FieldOk<V>(p: Pairs<V>, key: string) { Lookup(p, key).None? || Lookup(p, key).value.Leaf? }

  function FieldAt<V(!new)>(s: Schema<V>, p: Pairs<V>, i: nat): V
    requires i < |s.fields| && FieldOk(p, s.fields[i])
  {
    if Lookup(p, s.fields[i]).None? then s.zero(i) else Lookup(p, s.fields[i]).value.value
  }

  predicate Decodes<V(!new)>(s: Schema<V>, node: Node<V>)
  {
    node.Mapping? && DistinctKeys(node.pairs) && forall i :: 0 <= i < |s.fields| ==> FieldOk(node.pairs, s.fields[i])
  }

  function Decode<V(!new)>(s: Schema<V>, node: Node<V>): (rule: RuleValue<V>)
    requires Decodes(s, node)
    ensures |rule| == |s.fields| && forall i :: 0 <= i < |rule| ==> rule[i] == FieldAt(s, node.pairs, i)
  {
    seq(|s.fields|, i requires 0 <= i < |s.fields| => FieldAt(s, node.pairs, i))
  }

  function Standard<V(!new)>(s: Schema<V>, rule: RuleValue<V>): (r: RuleValue<V>)
    ensures |r| == |rule| && forall i :: 0 <= i < |r| ==> r[i] == s.std(i, rule[i])
  {
    seq(|rule|, i requires 0 <= i < |rule| => s.std(i, rule[i]))
  }

  /** The pairs of fields i and up; fields at their omitted value are left out. */
  function EncodeFrom<V(!new)>(s: Schema<V>, rule: RuleValue<V>, i: nat): Pairs<V>
    requires |rule| == |s.fields| && i <= |rule|
    decreases |rule| - i
  {
    if i == |rule| then []
    else (if s.omits(i, rule[i]) then [] else [(s.fields[i], Leaf(s.written(i, rule[i])))]) + EncodeFrom(s, rule, i + 1)
  }

  function Encode<V(!new)>(s: Schema<V>, rule: RuleValue<V>): Node<V>
    requires |rule| == |s.fields|
  {
    Mapping(EncodeFrom(s, rule, 0))
  }

  lemma {:induction false} EncodedKeys<V(!new)>(s: Schema<V>, rule: RuleValue<V>, i: nat)
    requires SchemaOk(s) && |rule| == |s.fields| && i <= |rule|
    ensures var p := EncodeFrom(s, rule, i);
      DistinctKeys(p) && forall k :: 0 <= k < |p| ==> exists j :: i <= j < |s.fields| && s.fields[j] == p[k].0
    decreases |rule| - i
  {
    if i < |rule| {
      EncodedKeys(s, rule, i + 1);
    }
  }

  lemma {:induction false} EncodedLookup<V(!new)>(s: Schema<V>, rule: RuleValue<V>, i: nat, k: nat)
    requires SchemaOk(s) && |rule| == |s.fields| && i <= |rule| && k < |rule|
    ensures Lookup(EncodeFrom(s, rule, i), s.fields[k]) ==
            if k < i || s.omits(k, rule[k]) then None else Some(Leaf(s.written(k, rule[k])))
    decreases |rule| - i
  {
    if i < |rule| {
      EncodedLookup(s, rule, i + 1, k);
      assert i != k ==> s.fields[i] != s.fields[k];
      var rest := EncodeFrom(s, rule, i + 1);
      if !s.omits(i, rule[i]) {
        var head := (s.fields[i], Leaf(s.written(i, rule[i])));
        assert ([head] + rest)[1..] == rest;
      } else {
        assert EncodeFrom(s, rule, i) == rest;
      }
    }
  }

  /** What is encoded reads back as the same rule, up to normalisation. */
  lemma DecodeEncoded<V(!new)>(s: Schema<V>, rule: RuleValue<V>)
    requires SchemaOk(s) && |rule| == |s.fields|
    ensures Decodes(s, Encode(s, rule)) && Standard(s, Decode(s, Encode(s, rule))) == Standard(s, rule)
  {
    EncodedKeys(s, rule, 0);
    var p := EncodeFrom(s, rule, 0);
    forall k | 0 <= k < |s.fields|
      ensures FieldOk(p, s.fields[k]) && s.std(k, FieldAt(s, p, k)) == s.std(k, rule[k])
    {
      EncodedLookup(s, rule, 0, k);
    }
    assert Decodes(s, Encode(s, rule));
  }

  // ---------- Merging one rule ----------

  /** The first n fields merged: a field that differs is written, others are left as they stand. */
  function MergeFields<V(!new, ==)>(s: Schema<V>, p: Pairs<V>, current: RuleValue<V>, desired: RuleValue<V>, n: nat): Pairs<V>
    requires n <= |s.fields| == |current| == |desired|
  {
    if n == 0 then p
    else
      var q := MergeFields(s, p, current, desired, n - 1);
      if current[n - 1] == desired[n - 1] then q else Set(q, s.fields[n - 1], Leaf(s.written(n - 1, desired[n - 1])))
  }

  lemma {:induction false} MergedFields<V(!new)>(s: Schema<V>, p: Pairs<V>, current: RuleValue<V>, desired: RuleValue<V>, n: nat)
    requires SchemaOk(s) && n <= |s.fields| == |current| == |desired| && DistinctKeys(p)
    ensures var q := MergeFields(s, p, current, desired, n);
      && DistinctKeys(q)
      && Others(q, s.fields) == Others(p, s.fields)
      && forall k :: 0 <= k < |s.fields| ==>
           Lookup(q, s.fields[k]) ==
           if k < n && current[k] != desired[k] then Some(Leaf(s.written(k, desired[k]))) else Lookup(p, s.fields[k])
  {
    if n > 0 {
      MergedFields(s, p, current, desired, n - 1);
      var q := MergeFields(s, p, current, desired, n - 1);
      var written: Node<V> := Leaf(s.written(n - 1, desired[n - 1]));
      SetKeepsDistinct(q, s.fields[n - 1], written);
      OthersSet(q, s.fields[n - 1], written, s.fields);
      forall k | 0 <= k < |s.fields|
        ensures Lookup(Set(q, s.fields[n - 1], written), s.fields[k]) == if k == n - 1 then Some(written) else Lookup(q, s.fields[k])
      {
        LookupSet(q, s.fields[n - 1], written, s.fields[k]);
      }
    }
  }

  function MergeRule<V(!new, ==)>(s: Schema<V>, node: Node<V>, current: RuleValue<V>, desired: RuleValue<V>): Node<V>
    requires node.Mapping? && |s.fields| == |current| == |desired|
  {
    Mapping(MergeFields(s, node.pairs, current, desired, |s.fields|))
  }

  /** Merging into the node a standardised rule was read from yields a node that
      reads as the desired rule, and keeps every key the editor does not manage. */
  lemma MergeRuleReads<V(!new)>(s: Schema<V>, node: Node<V>, current: RuleValue<V>, desired: RuleValue<V>)
    requires SchemaOk(s) && Decodes(s, node) && current == Standard(s, Decode(s, node)) && |desired| == |s.fields|
    ensures var merged := MergeRule(s, node, current, desired);
      && Decodes(s, merged)
      && Standard(s, Decode(s, merged)) == Standard(s, desired)
      && Others(merged.pairs, s.fields) == Others(node.pairs, s.fields)
  {
    MergedFields(s, node.pairs, current, desired, |s.fields|);
    var merged := MergeRule(s, node, current, desired);
    forall k | 0 <= k < |s.fields|
      ensures FieldOk(merged.pairs, s.fields[k]) && s.std(k, FieldAt(s, merged.pairs, k)) == s.std(k, desired[k])
    {
      assert FieldOk(node.pairs, s.fields[k]);
      assert current[k] == s.std(k, FieldAt(s, node.pairs, k));
    }
    assert Decodes(s, merged);
  }
}

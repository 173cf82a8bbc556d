/** A complete replacement document built from an edited draft. */
module ConfigCandidate {
  import opened Wrappers
  import opened ConfigYaml
  import U = UdpSessions

  const MANAGED: seq<string> := [RULES_KEY, UDP_KEY]

  /** The managed part of a configuration. */
  datatype Draft<V> = Draft(rules: seq<RuleValue<V>>, udp: int)

  // ---------- Parsing a document ----------

  /** A normalised rule the parser accepts; an empty id is never valid. */
  predicate RuleOk<V(!new, ==)>(s: Schema<V>, rule: RuleValue<V>)
  {
    |rule| == |s.fields| > 0 && s.valid(rule) && rule[0] != s.std(0, s.zero(0))
  }

  function ItemsOf<V>(top: Pairs<V>): seq<Node<V>>
  {
    var node := Lookup(top, RULES_KEY);
    if node.Some? && node.value.Sequence? then node.value.items else []
  }

  predicate AllDecode<V(!new)>(s: Schema<V>, items: seq<Node<V>>)
  {
    forall i :: 0 <= i < |items| ==> Decodes(s, items[i])
  }

  function RulesOf<V(!new)>(s: Schema<V>, items: seq<Node<V>>): (rules: seq<RuleValue<V>>)
    requires AllDecode(s, items)
    ensures |rules| == |items| && forall i :: 0 <= i < |rules| ==> rules[i] == Standard(s, Decode(s, items[i]))
  {
    seq(|items|, i requires 0 <= i < |items| => Standard(s, Decode(s, items[i])))
  }

  function StandardAll<V(!new)>(s: Schema<V>, rules: seq<RuleValue<V>>): (r: seq<RuleValue<V>>)
    ensures |r| == |rules| && forall i :: 0 <= i < |r| ==> r[i] == Standard(s, rules[i])
  {
    seq(|rules|, i requires 0 <= i < |rules| => Standard(s, rules[i]))
  }

  predicate RulesOk<V(!new, ==)>(s: Schema<V>, rules: seq<RuleValue<V>>)
  {
    && (forall i :: 0 <= i < |rules| ==> RuleOk(s, rules[i]))
    && (forall i, j :: 0 <= i < j < |rules| ==> rules[i][0] != rules[j][0])
  }

  predicate UdpOk(n: int) { 0 <= n <= U.MAX_GLOBAL_MAX_SESSIONS }

  function NormalUdp(n: int): int { if n == 0 then U.DEFAULT_GLOBAL_MAX_SESSIONS else n }

  function UdpOf<V>(top: Pairs<V>): int
  {
    var node := Lookup(top, UDP_KEY);
    if node.Some? && node.value.Number? then node.value.n else 0
  }

  predicate ShapeOk<V>(top: Pairs<V>)
  {
    var rules, udp := Lookup(top, RULES_KEY), Lookup(top, UDP_KEY);
    && DistinctKeys(top)
    && (rules.Some? ==> rules.value.Null? || rules.value.Sequence?)
    && (udp.Some? ==> udp.value.Number?)
  }

  predicate Parses<V(!new, ==)>(s: Schema<V>, top: Pairs<V>)
  {
    && ShapeOk(top)
    && s.restOk(Others(top, MANAGED))
    && UdpOk(UdpOf(top))
    && AllDecode(s, ItemsOf(top))
    && RulesOk(s, RulesOf(s, ItemsOf(top)))
  }

  function Parsed<V(!new)>(s: Schema<V>, top: Pairs<V>): Draft<V>
    requires AllDecode(s, ItemsOf(top))
  {
    Draft(RulesOf(s, ItemsOf(top)), NormalUdp(UdpOf(top)))
  }

  // ---------- Drafts ----------

  /** Every rule has a value for every managed field. */
  predicate WellTyped<V(!new)>(s: Schema<V>, rules: seq<RuleValue<V>>)
  {
    forall i :: 0 <= i < |rules| ==> |rules[i]| == |s.fields| > 0
  }

  function NormalDraft<V(!new)>(s: Schema<V>, d: Draft<V>): Draft<V> { Draft(StandardAll(s, d.rules), NormalUdp(d.udp)) }

  predicate DraftOk<V(!new, ==)>(s: Schema<V>, d: Draft<V>)
  {
    RulesOk(s, StandardAll(s, d.rules)) && UdpOk(d.udp)
  }

  // ---------- Merging the rules ----------

  /** Position of the rule with this id. */
  function FindId<V(==)>(rules: seq<RuleValue<V>>, id: V): (i: nat)
    requires forall k :: 0 <= k < |rules| ==> |rules[k]| > 0
    ensures i <= |rules| && (i < |rules| ==> rules[i][0] == id) && forall k :: 0 <= k < i ==> rules[k][0] != id
  {
    if rules == [] || rules[0][0] == id then 0 else 1 + FindId(rules[1..], id)
  }

  function MergeOne<V(!new, ==)>(s: Schema<V>, items: seq<Node<V>>, current: seq<RuleValue<V>>, rule: RuleValue<V>): Node<V>
    requires AllDecode(s, items) && |items| == |current| && WellTyped(s, current) && |rule| == |s.fields| > 0
  {
    var j := FindId(current, s.std(0, rule[0]));
    if j == |current| then Encode(s, rule) else MergeRule(s, items[j], current[j], rule)
  }

  /** The nodes of the desired rules, in draft order; a repeated id is refused. */
  function MergeAll<V(!new, ==)>(s: Schema<V>, items: seq<Node<V>>, current: seq<RuleValue<V>>, desired: seq<RuleValue<V>>)
      : (r: Option<seq<Node<V>>>)
    requires AllDecode(s, items) && |items| == |current| && WellTyped(s, current) && WellTyped(s, desired)
    ensures r.Some? ==> |r.value| == |desired|
  {
    if desired == [] then Some([])
    else
      var n := |desired| - 1;
      var head := MergeAll(s, items, current, desired[..n]);
      if head.None? || IdTaken(s, desired[..n], s.std(0, desired[n][0])) then None
      else Some(head.value + [MergeOne(s, items, current, desired[n])])
  }

  predicate IdTaken<V(!new, ==)>(s: Schema<V>, rules: seq<RuleValue<V>>, id: V)
    requires WellTyped(s, rules)
  {
    exists k :: 0 <= k < |rules| && s.std(0, rules[k][0]) == id
  }

  predicate DistinctIds<V(!new, ==)>(s: Schema<V>, rules: seq<RuleValue<V>>)
    requires WellTyped(s, rules)
  {
    forall i, j :: 0 <= i < j < |rules| ==> s.std(0, rules[i][0]) != s.std(0, rules[j][0])
  }

  /** The keys of a rule's node the editor does not manage. */
  function UnknownKeys<V(!new)>(s: Schema<V>, node: Node<V>): Pairs<V>
  {
    if node.Mapping? then Others(node.pairs, s.fields) else []
  }

  /** A node of the result: it reads as its rule, and a rule the source has keeps its unmanaged keys. */
  predicate ReadsAs<V(!new, ==)>(s: Schema<V>, items: seq<Node<V>>, current: seq<RuleValue<V>>, node: Node<V>, rule: RuleValue<V>)
    requires AllDecode(s, items) && |items| == |current| && WellTyped(s, current) && |rule| == |s.fields| > 0
  {
    && Decodes(s, node) && Standard(s, Decode(s, node)) == Standard(s, rule)
    && var j := FindId(current, s.std(0, rule[0]));
       UnknownKeys(s, node) == if j == |current| then [] else UnknownKeys(s, items[j])
  }

  lemma {:induction false} EncodedHasNoOthers<V(!new)>(s: Schema<V>, rule: RuleValue<V>, i: nat)
    requires |rule| == |s.fields| && i <= |rule|
    ensures Others(EncodeFrom(s, rule, i), s.fields) == []
    decreases |rule| - i
  {
    if i < |rule| {
      EncodedHasNoOthers(s, rule, i + 1);
      var rest := EncodeFrom(s, rule, i + 1);
      var head := (s.fields[i], Leaf(s.written(i, rule[i])));
      assert ([head] + rest)[1..] == rest && head.0 in s.fields;
      assert EncodeFrom(s, rule, i) == if s.omits(i, rule[i]) then rest else [head] + rest;
    }
  }

  lemma MergeOneReads<V(!new)>(s: Schema<V>, items: seq<Node<V>>, current: seq<RuleValue<V>>, rule: RuleValue<V>)
    requires SchemaOk(s) && AllDecode(s, items) && current == RulesOf(s, items) && WellTyped(s, current)
    requires |rule| == |s.fields| > 0
    ensures ReadsAs(s, items, current, MergeOne(s, items, current, rule), rule)
  {
    hide SchemaOk, Others, Standard, MergeFields, Encode;
    var j := FindId(current, s.std(0, rule[0]));
    if j == |current| {
      DecodeEncoded(s, rule);
      EncodedOthers(s, rule);
    } else {
      assert Decodes(s, items[j]);
      MergeRuleReads(s, items[j], current[j], rule);
    }
  }

  lemma EncodedOthers<V(!new)>(s: Schema<V>, rule: RuleValue<V>)
    requires |rule| == |s.fields|
    ensures UnknownKeys(s, Encode(s, rule)) == []
  {
    EncodedHasNoOthers(s, rule, 0);
  }

  lemma {:induction false} MergeAllReads<V(!new)>(s: Schema<V>, items: seq<Node<V>>, current: seq<RuleValue<V>>, desired: seq<RuleValue<V>>)
    requires SchemaOk(s) && AllDecode(s, items) && current == RulesOf(s, items)
    requires WellTyped(s, current) && WellTyped(s, desired)
    ensures var r := MergeAll(s, items, current, desired);
      && (r.Some? <==> DistinctIds(s, desired))
      && (r.Some? ==> forall k :: 0 <= k < |desired| ==> ReadsAs(s, items, current, r.value[k], desired[k]))
  {
    hide SchemaOk, ReadsAs, MergeOne, AllDecode;
    if desired != [] {
      var n := |desired| - 1;
      MergeAllReads(s, items, current, desired[..n]);
      MergeOneReads(s, items, current, desired[n]);
      OneMoreId(s, desired);
    }
  }

  lemma OneMoreId<V(!new)>(s: Schema<V>, rules: seq<RuleValue<V>>)
    requires WellTyped(s, rules) && rules != []
    ensures var n := |rules| - 1;
      DistinctIds(s, rules) <==> DistinctIds(s, rules[..n]) && !IdTaken(s, rules[..n], s.std(0, rules[n][0]))
  {
    var n := |rules| - 1;
    if DistinctIds(s, rules) {
      forall k | 0 <= k < n ensures s.std(0, rules[..n][k][0]) != s.std(0, rules[n][0]) { assert rules[..n][k] == rules[k]; }
      forall i, j | 0 <= i < j < n ensures s.std(0, rules[..n][i][0]) != s.std(0, rules[..n][j][0]) {
        assert rules[..n][i] == rules[i] && rules[..n][j] == rules[j];
      }
    } else {
      var i, j :| 0 <= i < j < |rules| && s.std(0, rules[i][0]) == s.std(0, rules[j][0]);
      assert rules[..n][i] == rules[i];
      if j < n { assert rules[..n][j] == rules[j]; }
    }
  }

  // ---------- Rendering ----------

  function EncodeAll<V(!new)>(s: Schema<V>, rules: seq<RuleValue<V>>): seq<Node<V>>
    requires WellTyped(s, rules)
  {
    seq(|rules|, i requires 0 <= i < |rules| => Encode(s, rules[i]))
  }

  function RenderRules<V(!new, ==)>(s: Schema<V>, top: Pairs<V>, current: seq<RuleValue<V>>, desired: seq<RuleValue<V>>): Option<Pairs<V>>
    requires AllDecode(s, ItemsOf(top)) && |ItemsOf(top)| == |current| && WellTyped(s, current) && WellTyped(s, desired)
  {
    if current == desired then Some(top)
    else if Lookup(top, RULES_KEY).Some? && Lookup(top, RULES_KEY).value.Sequence? then
      var merged := MergeAll(s, ItemsOf(top), current, desired);
      if merged.None? then None else Some(Set(top, RULES_KEY, Sequence(merged.value)))
    else Some(Set(top, RULES_KEY, Sequence(EncodeAll(s, desired))))
  }

  function Render<V(!new, ==)>(s: Schema<V>, top: Pairs<V>, current: Draft<V>, desired: Draft<V>): Option<Pairs<V>>
    requires AllDecode(s, ItemsOf(top)) && |ItemsOf(top)| == |current.rules|
    requires WellTyped(s, current.rules) && WellTyped(s, desired.rules)
  {
    var edited := RenderRules(s, top, current.rules, desired.rules);
    if edited.None? then None
    else if current.udp == desired.udp then edited
    else Some(Set(edited.value, UDP_KEY, Number(desired.udp)))
  }

  /** Of the rules of `after`, those the document `before` has by id kept their unmanaged keys. */
  predicate KeepsUnknownKeys<V(!new, ==)>(s: Schema<V>, before: Pairs<V>, after: Pairs<V>)
    requires AllDecode(s, ItemsOf(before)) && AllDecode(s, ItemsOf(after))
  {
    var was, now := RulesOf(s, ItemsOf(before)), RulesOf(s, ItemsOf(after));
    forall i, j :: 0 <= i < |was| && 0 <= j < |now| && |was[i]| > 0 && |now[j]| > 0 && was[i][0] == now[j][0] ==>
      UnknownKeys(s, ItemsOf(after)[j]) == UnknownKeys(s, ItemsOf(before)[i])
  }

  /** The document's rules node after a render, read against the desired rules. */
  predicate RulesRead<V(!new, ==)>(s: Schema<V>, before: Pairs<V>, after: Pairs<V>, desired: seq<RuleValue<V>>)
    requires AllDecode(s, ItemsOf(before)) && WellTyped(s, desired)
  {
    && ShapeOk(after) && AllDecode(s, ItemsOf(after))
    && RulesOf(s, ItemsOf(after)) == StandardAll(s, desired)
    && KeepsUnknownKeys(s, before, after)
    && Others(after, MANAGED) == Others(before, MANAGED)
    && Lookup(after, UDP_KEY) == Lookup(before, UDP_KEY)
  }

  lemma StandardAgain<V(!new)>(s: Schema<V>, items: seq<Node<V>>)
    requires SchemaOk(s) && AllDecode(s, items)
    ensures StandardAll(s, RulesOf(s, items)) == RulesOf(s, items)
  {
    var rules := RulesOf(s, items);
    forall i | 0 <= i < |rules| ensures Standard(s, rules[i]) == rules[i] { StandardTwice(s, Decode(s, items[i])); }
  }

  lemma StandardTwice<V(!new)>(s: Schema<V>, rule: RuleValue<V>)
    requires SchemaOk(s)
    ensures Standard(s, Standard(s, rule)) == Standard(s, rule)
  {
    var once := Standard(s, rule);
    forall i | 0 <= i < |rule| ensures s.std(i, once[i]) == once[i] {}
  }

  lemma KeepsItself<V(!new)>(s: Schema<V>, top: Pairs<V>)
    requires AllDecode(s, ItemsOf(top)) && RulesOk(s, RulesOf(s, ItemsOf(top)))
    ensures KeepsUnknownKeys(s, top, top)
  {
    hide RuleOk;
  }

  lemma SetRulesNode<V(!new)>(s: Schema<V>, top: Pairs<V>, items: seq<Node<V>>)
    requires ShapeOk(top)
    ensures var t := Set(top, RULES_KEY, Sequence(items));
      ShapeOk(t) && ItemsOf(t) == items && Lookup(t, UDP_KEY) == Lookup(top, UDP_KEY) && Others(t, MANAGED) == Others(top, MANAGED)
  {
    hide Set, Others;
    var node: Node<V> := Sequence(items);
    KeysDiffer();
    LookupSet(top, RULES_KEY, node, RULES_KEY);
    LookupSet(top, RULES_KEY, node, UDP_KEY);
    OthersSet(top, RULES_KEY, node, MANAGED);
    SetKeepsDistinct(top, RULES_KEY, node);
  }

  lemma KeysDiffer()
    ensures RULES_KEY != UDP_KEY && RULES_KEY in MANAGED && UDP_KEY in MANAGED
  {
    assert |RULES_KEY| != |UDP_KEY|;
    assert MANAGED[0] == RULES_KEY && MANAGED[1] == UDP_KEY;
  }

  /** Nodes that read as the desired rules one by one read as them all, and keep the unmanaged keys. */
  lemma MergedRead<V(!new)>(s: Schema<V>, before: seq<Node<V>>, after: seq<Node<V>>, current: seq<RuleValue<V>>, desired: seq<RuleValue<V>>)
    requires SchemaOk(s) && AllDecode(s, before) && current == RulesOf(s, before) && RulesOk(s, current)
    requires WellTyped(s, current) && WellTyped(s, desired) && |after| == |desired|
    requires forall k :: 0 <= k < |desired| ==> ReadsAs(s, before, current, after[k], desired[k])
    ensures AllDecode(s, after) && RulesOf(s, after) == StandardAll(s, desired)
    ensures forall i, j :: 0 <= i < |before| && 0 <= j < |after| && current[i][0] == RulesOf(s, after)[j][0] ==>
              UnknownKeys(s, after[j]) == UnknownKeys(s, before[i])
  {
    hide SchemaOk, UnknownKeys, Decodes, RuleOk;
    forall k | 0 <= k < |after| ensures Decodes(s, after[k]) && Standard(s, Decode(s, after[k])) == Standard(s, desired[k]) {
      assert ReadsAs(s, before, current, after[k], desired[k]);
    }
    forall i, j | 0 <= i < |before| && 0 <= j < |after| && current[i][0] == RulesOf(s, after)[j][0]
      ensures UnknownKeys(s, after[j]) == UnknownKeys(s, before[i])
    {
      assert ReadsAs(s, before, current, after[j], desired[j]);
      var at := FindId(current, s.std(0, desired[j][0]));
      assert current[i][0] == s.std(0, desired[j][0]);
      assert at == i;
    }
  }

  lemma EncodedAllReads<V(!new)>(s: Schema<V>, rules: seq<RuleValue<V>>)
    requires SchemaOk(s) && WellTyped(s, rules)
    ensures AllDecode(s, EncodeAll(s, rules)) && RulesOf(s, EncodeAll(s, rules)) == StandardAll(s, rules)
  {
    hide SchemaOk, Decodes, Standard, Encode;
    forall k | 0 <= k < |rules|
      ensures Decodes(s, EncodeAll(s, rules)[k]) && Standard(s, Decode(s, EncodeAll(s, rules)[k])) == Standard(s, rules[k])
    {
      DecodeEncoded(s, rules[k]);
    }
  }

  lemma RenderedRulesRead<V(!new)>(s: Schema<V>, top: Pairs<V>, desired: seq<RuleValue<V>>)
    requires SchemaOk(s) && Parses(s, top) && WellTyped(s, desired)
    ensures var current := RulesOf(s, ItemsOf(top)); var r := RenderRules(s, top, current, desired);
      && (r.None? ==> !DistinctIds(s, desired))
      && (r.Some? ==> RulesRead(s, top, r.value, desired))
  {
    hide SchemaOk, RuleOk, Decodes, ReadsAs, Others, MergeOne;
    var items := ItemsOf(top);
    var current := RulesOf(s, items);
    ParsedWellTyped(s, top);
    if current == desired {
      StandardAgain(s, items);
      KeepsItself(s, top);
    } else if Lookup(top, RULES_KEY).Some? && Lookup(top, RULES_KEY).value.Sequence? {
      MergeAllReads(s, items, current, desired);
      var merged := MergeAll(s, items, current, desired);
      if merged.Some? {
        SetRulesNode(s, top, merged.value);
        MergedRead(s, items, merged.value, current, desired);
      }
    } else {
      SetRulesNode(s, top, EncodeAll(s, desired));
      EncodedAllReads(s, desired);
    }
  }

  lemma SetUdpNode<V(!new)>(s: Schema<V>, top: Pairs<V>, n: int)
    requires ShapeOk(top)
    ensures var t := Set(top, UDP_KEY, Number(n));
      ShapeOk(t) && ItemsOf(t) == ItemsOf(top) && UdpOf(t) == n && Others(t, MANAGED) == Others(top, MANAGED)
  {
    hide Set, Others;
    var node: Node<V> := Number(n);
    KeysDiffer();
    LookupSet(top, UDP_KEY, node, RULES_KEY);
    LookupSet(top, UDP_KEY, node, UDP_KEY);
    OthersSet(top, UDP_KEY, node, MANAGED);
    SetKeepsDistinct(top, UDP_KEY, node);
  }

  lemma RulesOkIffDistinct<V(!new)>(s: Schema<V>, rules: seq<RuleValue<V>>)
    requires WellTyped(s, rules) && RulesOk(s, StandardAll(s, rules))
    ensures DistinctIds(s, rules)
  {
    hide RuleOk;
    var r := StandardAll(s, rules);
    forall i, j | 0 <= i < j < |rules| ensures s.std(0, rules[i][0]) != s.std(0, rules[j][0]) {
      assert r[i][0] != r[j][0];
    }
  }

  /** Rendering a draft into a parsed document gives a document that parses
      exactly when the draft is acceptable, and then to the normalised draft;
      all other settings and all unmanaged rule keys are as before. */
  lemma RenderParses<V(!new)>(s: Schema<V>, top: Pairs<V>, draft: Draft<V>)
    requires SchemaOk(s) && Parses(s, top) && WellTyped(s, draft.rules)
    ensures WellTyped(s, Parsed(s, top).rules)
    ensures var r := Render(s, top, Parsed(s, top), draft);
      && ((r.Some? && Parses(s, r.value)) <==> DraftOk(s, draft))
      && (r.Some? && Parses(s, r.value) ==>
            && Parsed(s, r.value) == NormalDraft(s, draft)
            && Others(r.value, MANAGED) == Others(top, MANAGED)
            && KeepsUnknownKeys(s, top, r.value))
  {
    hide SchemaOk, RuleOk, Decodes, Others, MergeAll, Set, KeepsUnknownKeys;
    ParsedWellTyped(s, top);
    RenderedRulesRead(s, top, draft.rules);
    var current := Parsed(s, top);
    var edited := RenderRules(s, top, current.rules, draft.rules);
    if edited.None? {
      if DraftOk(s, draft) { RulesOkIffDistinct(s, draft.rules); }
    } else if current.udp != draft.udp {
      SetUdpNode(s, edited.value, draft.udp);
      SameItemsKeep(s, top, edited.value, Set(edited.value, UDP_KEY, Number(draft.udp)));
    }
  }

  lemma SameItemsKeep<V(!new)>(s: Schema<V>, before: Pairs<V>, after: Pairs<V>, t: Pairs<V>)
    requires AllDecode(s, ItemsOf(before)) && AllDecode(s, ItemsOf(after)) && ItemsOf(t) == ItemsOf(after)
    requires KeepsUnknownKeys(s, before, after)
    ensures KeepsUnknownKeys(s, before, t)
  {
  }

  lemma ParsedWellTyped<V(!new)>(s: Schema<V>, top: Pairs<V>)
    requires Parses(s, top)
    ensures WellTyped(s, Parsed(s, top).rules)
  {
    forall i | 0 <= i < |Parsed(s, top).rules| ensures |Parsed(s, top).rules[i]| == |s.fields| > 0 {
      assert RuleOk(s, Parsed(s, top).rules[i]);
    }
  }

  // ---------- The candidate ----------

  /** Rendered twice: the first pass finds the normalised rules, the second writes them. */
  function BuildCandidate<V(!new, ==)>(s: Schema<V>, top: Pairs<V>, draft: Draft<V>): Option<(Pairs<V>, Draft<V>)>
    requires Parses(s, top) && WellTyped(s, Parsed(s, top).rules) && WellTyped(s, draft.rules)
  {
    var source := Parsed(s, top);
    var first := Render(s, top, source, draft);
    if first.None? || !Parses(s, first.value) || !WellTyped(s, Parsed(s, first.value).rules) then None
    else
      var raw := Render(s, top, source, Parsed(s, first.value));
      if raw.None? || !Parses(s, raw.value) then None else Some((raw.value, Parsed(s, raw.value)))
  }

  /** A candidate is built exactly when the draft is acceptable.  It parses to
      the normalised draft, rules in draft order; other settings and unmanaged
      rule keys are kept; and building again from it changes nothing. */
  lemma CandidateIsTheDraft<V(!new)>(s: Schema<V>, top: Pairs<V>, draft: Draft<V>)
    requires SchemaOk(s) && Parses(s, top) && WellTyped(s, draft.rules)
    ensures WellTyped(s, Parsed(s, top).rules)
    ensures BuildCandidate(s, top, draft).Some? <==> DraftOk(s, draft)
    ensures DraftOk(s, draft) ==>
      var (raw, cfg) := BuildCandidate(s, top, draft).value;
      && Parses(s, raw) && Parsed(s, raw) == cfg == NormalDraft(s, draft)
      && Others(raw, MANAGED) == Others(top, MANAGED)
      && KeepsUnknownKeys(s, top, raw)
  {
    hide SchemaOk, RulesOk, ShapeOk, DraftOk, Render, KeepsUnknownKeys, Others, WellTyped;
    RenderParses(s, top, draft);
    if DraftOk(s, draft) {
      var first := Render(s, top, Parsed(s, top), draft).value;
      ParsedWellTyped(s, first);
      NormalDraftOk(s, draft);
      RenderParses(s, top, NormalDraft(s, draft));
      NormalTwice(s, draft);
    }
  }

  lemma NormalDraftOk<V(!new)>(s: Schema<V>, draft: Draft<V>)
    requires SchemaOk(s) && DraftOk(s, draft) && WellTyped(s, draft.rules)
    ensures DraftOk(s, NormalDraft(s, draft)) && WellTyped(s, NormalDraft(s, draft).rules)
  {
    NormalTwice(s, draft);
  }

  lemma NormalTwice<V(!new)>(s: Schema<V>, draft: Draft<V>)
    requires SchemaOk(s)
    ensures NormalDraft(s, NormalDraft(s, draft)) == NormalDraft(s, draft)
    ensures StandardAll(s, StandardAll(s, draft.rules)) == StandardAll(s, draft.rules)
  {
    forall i | 0 <= i < |draft.rules| ensures Standard(s, Standard(s, draft.rules[i])) == Standard(s, draft.rules[i]) {
      StandardTwice(s, draft.rules[i]);
    }
  }

  /** Building again from a candidate's own configuration returns that document:
      an unchanged draft takes the short cut that returns its source.  The edits
      behind the short cut would change nothing either; see EditingUnchangedRules. */
  lemma RebuildingChangesNothing<V(!new)>(s: Schema<V>, top: Pairs<V>, draft: Draft<V>)
    requires SchemaOk(s) && Parses(s, top) && WellTyped(s, draft.rules) && DraftOk(s, draft)
    ensures WellTyped(s, Parsed(s, top).rules) && BuildCandidate(s, top, draft).Some?
    ensures var (raw, cfg) := BuildCandidate(s, top, draft).value;
      Parses(s, raw) && WellTyped(s, cfg.rules) && BuildCandidate(s, raw, cfg) == Some((raw, cfg))
  {
    hide SchemaOk, Parses, DraftOk, BuildCandidate, KeepsUnknownKeys, WellTyped;
    CandidateIsTheDraft(s, top, draft);
    var (raw, cfg) := BuildCandidate(s, top, draft).value;
    ParsedWellTyped(s, raw);
    RenderOwn(s, raw);
  }

  lemma RenderOwn<V(!new)>(s: Schema<V>, top: Pairs<V>)
    requires Parses(s, top) && WellTyped(s, Parsed(s, top).rules)
    ensures BuildCandidate(s, top, Parsed(s, top)) == Some((top, Parsed(s, top)))
  {
    hide Parses, WellTyped;
  }

  // ---------- Editing without a change ----------

  lemma {:induction false} MergeFieldsUnchanged<V(!new)>(s: Schema<V>, p: Pairs<V>, rule: RuleValue<V>, n: nat)
    requires n <= |s.fields| == |rule|
    ensures MergeFields(s, p, rule, rule, n) == p
  {
    if n > 0 { MergeFieldsUnchanged(s, p, rule, n - 1); }
  }

  lemma MergeOneUnchanged<V(!new)>(s: Schema<V>, items: seq<Node<V>>, current: seq<RuleValue<V>>, i: nat)
    requires SchemaOk(s) && AllDecode(s, items) && current == RulesOf(s, items) && RulesOk(s, current) && WellTyped(s, current)
    requires i < |current|
    ensures s.std(0, current[i][0]) == current[i][0]
    ensures MergeOne(s, items, current, current[i]) == items[i]
  {
    hide RuleOk;
    assert Decodes(s, items[i]) && current[i] == Standard(s, Decode(s, items[i]));
    assert current[i][0] == s.std(0, Decode(s, items[i])[0]);
    var j := FindId(current, current[i][0]);
    assert j == i;
    MergeFieldsUnchanged(s, items[i].pairs, current[i], |s.fields|);
  }

  lemma IdFreeBefore<V(!new)>(s: Schema<V>, items: seq<Node<V>>, current: seq<RuleValue<V>>, n: nat)
    requires SchemaOk(s) && AllDecode(s, items) && current == RulesOf(s, items) && RulesOk(s, current) && WellTyped(s, current)
    requires n < |current| && WellTyped(s, current[..n])
    ensures !IdTaken(s, current[..n], s.std(0, current[n][0]))
  {
    hide RuleOk, MergeOne, AllDecode, SchemaOk;
    MergeOneUnchanged(s, items, current, n);
    if k :| 0 <= k < n && s.std(0, current[..n][k][0]) == s.std(0, current[n][0]) {
      MergeOneUnchanged(s, items, current, k);
      assert false;
    }
  }

  lemma {:induction false} MergeAllUnchanged<V(!new)>(s: Schema<V>, items: seq<Node<V>>, current: seq<RuleValue<V>>, n: nat)
    requires SchemaOk(s) && AllDecode(s, items) && current == RulesOf(s, items) && RulesOk(s, current) && WellTyped(s, current)
    requires n <= |current| && WellTyped(s, current[..n])
    ensures MergeAll(s, items, current, current[..n]) == Some(items[..n])
  {
    hide RuleOk, MergeOne, AllDecode, SchemaOk;
    if n > 0 {
      assert current[..n][..n - 1] == current[..n - 1];
      MergeAllUnchanged(s, items, current, n - 1);
      MergeOneUnchanged(s, items, current, n - 1);
      IdFreeBefore(s, items, current, n - 1);
      assert items[..n] == items[..n - 1] + [items[n - 1]];
    }
  }

  lemma {:induction false} SetSame<V>(p: Pairs<V>, key: string)
    requires Lookup(p, key).Some?
    ensures Set(p, key, Lookup(p, key).value) == p
  {
    if p[0].0 != key { SetSame(p[1..], key); }
  }

  /** Rendering a document's own configuration into it is the identity, and so
      are the edits themselves: merging the rules gives their very nodes back,
      and writing them, or the limit, where they stand leaves the document as it is. */
  lemma EditingUnchangedRules<V(!new)>(s: Schema<V>, top: Pairs<V>)
    requires SchemaOk(s) && Parses(s, top)
    ensures WellTyped(s, Parsed(s, top).rules)
    ensures Render(s, top, Parsed(s, top), Parsed(s, top)) == Some(top)
    ensures MergeAll(s, ItemsOf(top), Parsed(s, top).rules, Parsed(s, top).rules) == Some(ItemsOf(top))
    ensures Lookup(top, RULES_KEY).Some? && Lookup(top, RULES_KEY).value.Sequence? ==>
              Set(top, RULES_KEY, Sequence(ItemsOf(top))) == top
    ensures Lookup(top, UDP_KEY).Some? ==> Set(top, UDP_KEY, Number(UdpOf(top))) == top
  {
    hide SchemaOk, RulesOk, MergeAll, Set;
    ParsedWellTyped(s, top);
    var rules := Parsed(s, top).rules;
    assert rules[..|rules|] == rules && ItemsOf(top)[..|rules|] == ItemsOf(top);
    MergeAllUnchanged(s, ItemsOf(top), rules, |rules|);
    if Lookup(top, RULES_KEY).Some? { SetSame(top, RULES_KEY); }
    if Lookup(top, UDP_KEY).Some? { SetSame(top, UDP_KEY); }
  }
}

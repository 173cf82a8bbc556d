/** Listen conflicts: an index by network and port that agrees with comparing
    a new endpoint with every earlier one. */
module EndpointIndex {
  import opened Wrappers
  import opened Text
  import opened Rules
  import ForwardingGraph
  import LoopCheck

  /** A rule's listening endpoint. */
  datatype Owned = Owned(endpoint: Endpoint, ruleId: string)

  datatype Group = Group(network: Network, port: int)

  datatype Bucket = Bucket(first: Option<Owned>, wildcard: Option<Owned>, byAddr: map<string, Owned>)

  const EMPTY_BUCKET := Bucket(None, None, map[])

  function GroupOf(e: Endpoint): Group { Group(e.network, e.port) }

  function Normalized(e: Endpoint): Endpoint { e.(addr := CanonicalListenAddr(e.addr)) }

  lemma NormalizeStable(addr: string)
    ensures CanonicalListenAddr(CanonicalListenAddr(addr)) == CanonicalListenAddr(addr)
  {
    hide TrimSpace, ToLower;
    var lower := ToLower(addr);
    var a := TrimSpace(lower);
    TrimSpaceTrims(lower);
    TrimSpaceTrims(a);
    var i, j := TrimIsSlice(lower);
    LowerSlice(addr, i, j);
    TrimSpaceTrims("");
    NothingToLower();
  }

  lemma NothingToLower()
    ensures ToLower("") == ""
  {
  }

  /** Trimming keeps a contiguous part. */
  lemma TrimIsSlice(s: string) returns (i: nat, j: nat)
    ensures i <= j <= |s| && TrimSpace(s) == s[i..j]
  {
    hide TrimLeft, TrimRight;
    i := LeftIsSlice(s);
    TrimRightEnds(TrimLeft(s));
    j := i + |TrimSpace(s)|;
    assert TrimSpace(s) == s[i..][..|TrimSpace(s)|];
  }

  lemma {:induction false} LeftIsSlice(s: string) returns (i: nat)
    ensures i <= |s| && TrimLeft(s) == s[i..]
  {
    i := 0;
    if s != "" && IsSpace(s[0]) {
      var rest := LeftIsSlice(s[1..]);
      i := rest + 1;
    }
  }

  lemma LowerSlice(s: string, i: nat, j: nat)
    requires i <= j <= |ToLower(s)|
    ensures ToLower(ToLower(s)[i..j]) == ToLower(s)[i..j]
  {
    var part := ToLower(s)[i..j];
    forall k | 0 <= k < |part| ensures LowerChar(part[k]) == part[k] {
      assert part[k] == LowerChar(s[i + k]);
    }
  }

  // ---------- The index ----------

  /** What a bucket holds of the endpoints added so far, all of one group. */
  predicate BucketOk(b: Bucket, g: Group, added: seq<Owned>)
  {
    && (forall e :: e in Held(b) ==> e in added && GroupOf(e.endpoint) == g)
    && (b.wildcard.Some? ==> b.wildcard.value.endpoint.addr == "")
    && (forall a :: a in b.byAddr ==> b.byAddr[a].endpoint.addr == a)
    && (forall e :: e in added && GroupOf(e.endpoint) == g ==> Represented(b, e.endpoint.addr))
  }

  function Held(b: Bucket): set<Owned>
  {
    b.byAddr.Values + (if b.first.Some? then {b.first.value} else {}) + (if b.wildcard.Some? then {b.wildcard.value} else {})
  }

  predicate Represented(b: Bucket, addr: string)
  {
    b.first.Some? && (if addr == "" then b.wildcard.Some? else addr in b.byAddr)
  }

  ghost predicate IndexOk(index: map<Group, Bucket>, added: seq<Owned>)
  {
    forall g: Group :: BucketOk(BucketAt(index, g), g, added)
  }

  function BucketAt(index: map<Group, Bucket>, g: Group): Bucket { if g in index then index[g] else EMPTY_BUCKET }

  class Index {
    var buckets: map<Group, Bucket>
    ghost var added: seq<Owned>

    ghost predicate Valid()
      reads this
    {
      IndexOk(buckets, added)
    }

    constructor ()
      ensures Valid() && added == []
    {
      buckets, added := map[], [];
    }

    /** Finds a conflicting endpoint exactly when there is one. */
    method Conflict(e: Endpoint) returns (existing: Option<Owned>)
      requires Valid()
      ensures existing.None? <==> forall o :: o in added ==> !Conflicts(o.endpoint, Normalized(e))
      ensures existing.Some? ==> existing.value in added && Conflicts(existing.value.endpoint, Normalized(e))
    {
      var g := GroupOf(e);
      if g !in buckets {
        NothingInGroup(buckets, added, g, Normalized(e));
        return None;
      }
      var bucket := buckets[g];
      var addr := CanonicalListenAddr(e.addr);
      assert BucketOk(BucketAt(buckets, g), g, added);
      BucketAnswers(bucket, g, added, Normalized(e));
      if addr == "" { return bucket.first; }
      if bucket.wildcard.Some? { return bucket.wildcard; }
      existing := if addr in bucket.byAddr then Some(bucket.byAddr[addr]) else None;
    }

    method Add(owned: Owned)
      requires Valid()
      modifies this
      ensures Valid() && added == old(added) + [owned.(endpoint := Normalized(owned.endpoint))]
    {
      var o := owned.(endpoint := Normalized(owned.endpoint));
      var g := GroupOf(o.endpoint);
      var bucket := if g in buckets then buckets[g] else EMPTY_BUCKET;
      ghost var before := bucket;
      if bucket.first.None? { bucket := bucket.(first := Some(o)); }
      if o.endpoint.addr == "" {
        if bucket.wildcard.None? { bucket := bucket.(wildcard := Some(o)); }
      } else if o.endpoint.addr !in bucket.byAddr {
        bucket := bucket.(byAddr := bucket.byAddr[o.endpoint.addr := o]);
      }
      Added(buckets, added, o);
      buckets := buckets[g := bucket];
      added := added + [o];
    }
  }

  function WithOwned(b: Bucket, o: Owned): Bucket
  {
    var addr := o.endpoint.addr;
    Bucket(if b.first.None? then Some(o) else b.first,
           if addr == "" && b.wildcard.None? then Some(o) else b.wildcard,
           if addr != "" && addr !in b.byAddr then b.byAddr[addr := o] else b.byAddr)
  }

  lemma BucketAnswers(b: Bucket, g: Group, added: seq<Owned>, e: Endpoint)
    requires BucketOk(b, g, added) && GroupOf(e) == g
    ensures var answer := if e.addr == "" then b.first else if b.wildcard.Some? then b.wildcard
                          else if e.addr in b.byAddr then Some(b.byAddr[e.addr]) else None;
      && (answer.None? <==> forall o :: o in added ==> !Conflicts(o.endpoint, e))
      && (answer.Some? ==> answer.value in added && Conflicts(answer.value.endpoint, e))
  {
    var answer := if e.addr == "" then b.first else if b.wildcard.Some? then b.wildcard
                  else if e.addr in b.byAddr then Some(b.byAddr[e.addr]) else None;
    if answer.Some? {
      assert answer.value in Held(b);
    } else {
      forall o | o in added ensures !Conflicts(o.endpoint, e) {
        if GroupOf(o.endpoint) == g { assert Represented(b, o.endpoint.addr); }
      }
    }
  }

  lemma NothingInGroup(index: map<Group, Bucket>, added: seq<Owned>, g: Group, e: Endpoint)
    requires IndexOk(index, added) && g !in index && GroupOf(e) == g
    ensures forall o :: o in added ==> !Conflicts(o.endpoint, e)
  {
    assert BucketOk(BucketAt(index, g), g, added);
    BucketAnswers(EMPTY_BUCKET, g, added, e);
  }

  lemma AddedToBucket(b: Bucket, g: Group, added: seq<Owned>, o: Owned)
    requires BucketOk(b, g, added) && GroupOf(o.endpoint) == g
    ensures BucketOk(WithOwned(b, o), g, added + [o])
  {
    var c := WithOwned(b, o);
    forall e | e in Held(c) ensures e in added + [o] && GroupOf(e.endpoint) == g {
      if e != o { HeldBefore(b, o, e); }
    }
    forall e | e in added + [o] && GroupOf(e.endpoint) == g ensures Represented(c, e.endpoint.addr) {
      if e in added { assert Represented(b, e.endpoint.addr); }
    }
  }

  lemma HeldBefore(b: Bucket, o: Owned, e: Owned)
    requires e in Held(WithOwned(b, o)) && e != o
    ensures e in Held(b)
  {
    var addr := o.endpoint.addr;
    if e in WithOwned(b, o).byAddr.Values {
      var a :| a in WithOwned(b, o).byAddr && WithOwned(b, o).byAddr[a] == e;
      assert a in b.byAddr && b.byAddr[a] == e;
    }
  }

  lemma OtherBucket(b: Bucket, g: Group, added: seq<Owned>, o: Owned)
    requires BucketOk(b, g, added) && GroupOf(o.endpoint) != g
    ensures BucketOk(b, g, added + [o])
  {
  }

  lemma Added(index: map<Group, Bucket>, added: seq<Owned>, o: Owned)
    requires IndexOk(index, added)
    ensures var g := GroupOf(o.endpoint); IndexOk(index[g := WithOwned(BucketAt(index, g), o)], added + [o])
  {
    hide BucketOk;
    var g := GroupOf(o.endpoint);
    var index' := index[g := WithOwned(BucketAt(index, g), o)];
    forall h: Group ensures BucketOk(BucketAt(index', h), h, added + [o]) {
      assert BucketOk(BucketAt(index, h), h, added);
      if h == g { AddedToBucket(BucketAt(index, g), g, added, o); } else { OtherBucket(BucketAt(index, h), h, added, o); }
    }
  }

  // ---------- All rules of a configuration ----------

  function OwnedOn(r: Rule, networks: seq<Network>): seq<Owned>
  {
    seq(|networks|, k requires 0 <= k < |networks| => Owned(LoopCheck.ListenNode(r, networks[k]), Standardize(r).ruleId))
  }

  function EndpointsForRule(r: Rule): seq<Owned>
  {
    if LoopCheck.TakesPart(r) then OwnedOn(r, LoopCheck.ForwardedNetworks(r.protocol)) else []
  }

  function AllEndpoints(rules: seq<Rule>): seq<Owned>
  {
    if rules == [] then [] else AllEndpoints(rules[..|rules| - 1]) + EndpointsForRule(rules[|rules| - 1])
  }

  /** No endpoint conflicts with an earlier one. */
  predicate ConflictFree(endpoints: seq<Owned>)
  {
    forall i, j :: 0 <= i < j < |endpoints| ==> !Conflicts(endpoints[i].endpoint, endpoints[j].endpoint)
  }

  /** The j-th endpoint conflicts with an earlier one. */
  predicate ConflictsEarlier(endpoints: seq<Owned>, j: nat)
    requires j < |endpoints|
  {
    exists i :: 0 <= i < j && Conflicts(endpoints[i].endpoint, endpoints[j].endpoint)
  }

  /** The endpoints that conflict with an earlier one, in order. */
  function Blamed(endpoints: seq<Owned>): seq<Owned>
  {
    if endpoints == [] then []
    else
      var n := |endpoints| - 1;
      Blamed(endpoints[..n]) + if ConflictsEarlier(endpoints, n) then [endpoints[n]] else []
  }

  lemma EndpointsNormalized(r: Rule, k: nat)
    requires k < |EndpointsForRule(r)|
    ensures Normalized(EndpointsForRule(r)[k].endpoint) == EndpointsForRule(r)[k].endpoint
  {
    NormalizeStable(Standardize(r).listenAddr);
  }

  method CheckRule(index: Index, r: Rule, found: seq<Owned>) returns (findings: seq<Owned>)
    requires index.Valid() && found == Blamed(index.added)
    modifies index
    ensures index.Valid() && index.added == old(index.added) + EndpointsForRule(r)
    ensures findings == Blamed(index.added)
  {
    hide Blamed, Conflicts, EndpointsForRule;
    findings := found;
    var endpoints := EndpointsForRule(r);
    ghost var before := index.added;
    for k := 0 to |endpoints|
      invariant index.Valid() && index.added == before + endpoints[..k]
      invariant findings == Blamed(index.added)
    {
      EndpointsNormalized(r, k);
      var existing := index.Conflict(endpoints[k].endpoint);
      OneMoreEndpoint(index.added, endpoints[k]);
      if existing.Some? { findings := findings + [endpoints[k]]; }
      index.Add(endpoints[k]);
      assert endpoints[..k + 1] == endpoints[..k] + [endpoints[k]];
    }
    assert endpoints[..|endpoints|] == endpoints;
  }

  /** The listen check of a configuration: it reports exactly the endpoints that
      conflict with an earlier one, each once and in order. */
  method CheckEndpointConflicts(rules: seq<Rule>) returns (findings: seq<Owned>)
    ensures findings == Blamed(AllEndpoints(rules))
    ensures forall e :: e in findings <==>
      exists j :: 0 <= j < |AllEndpoints(rules)| && AllEndpoints(rules)[j] == e && ConflictsEarlier(AllEndpoints(rules), j)
    ensures findings == [] <==> ConflictFree(AllEndpoints(rules))
  {
    hide EndpointsForRule, ConflictFree, ConflictsEarlier;
    var index := new Index();
    findings := [];
    for i := 0 to |rules|
      invariant index.Valid() && fresh(index) && index.added == AllEndpoints(rules[..i])
      invariant findings == Blamed(index.added)
    {
      assert rules[..i + 1][..i] == rules[..i];
      findings := CheckRule(index, rules[i], findings);
    }
    assert rules[..|rules|] == rules;
    BlamedAre(AllEndpoints(rules));
    NobodyBlamedIff(AllEndpoints(rules));
  }

  lemma OneMoreEndpoint(endpoints: seq<Owned>, e: Owned)
    ensures Blamed(endpoints + [e]) ==
            Blamed(endpoints) + if forall o :: o in endpoints ==> !Conflicts(o.endpoint, e.endpoint) then [] else [e]
  {
    hide Conflicts;
    var longer := endpoints + [e];
    assert longer[..|endpoints|] == endpoints;
    if ConflictsEarlier(longer, |endpoints|) {
      var i :| 0 <= i < |endpoints| && Conflicts(longer[i].endpoint, e.endpoint);
      assert endpoints[i] in endpoints;
    } else {
      forall o | o in endpoints ensures !Conflicts(o.endpoint, e.endpoint) {
        var i :| 0 <= i < |endpoints| && endpoints[i] == o;
        assert longer[i] == o && longer[|endpoints|] == e;
      }
    }
  }

  lemma {:induction false} BlamedAre(endpoints: seq<Owned>)
    ensures forall e :: e in Blamed(endpoints) <==>
      exists j :: 0 <= j < |endpoints| && endpoints[j] == e && ConflictsEarlier(endpoints, j)
  {
    hide Conflicts;
    if endpoints != [] {
      var n := |endpoints| - 1;
      BlamedAre(endpoints[..n]);
      forall j | 0 <= j < n ensures ConflictsEarlier(endpoints[..n], j) == ConflictsEarlier(endpoints, j) { EarlierInPrefix(endpoints, n, j); }
      forall e ensures e in Blamed(endpoints) <==>
        exists j :: 0 <= j < |endpoints| && endpoints[j] == e && ConflictsEarlier(endpoints, j)
      {
        BlamedStep(endpoints, e);
      }
    }
  }

  lemma EarlierInPrefix(endpoints: seq<Owned>, n: nat, j: nat)
    requires j < n <= |endpoints|
    ensures ConflictsEarlier(endpoints[..n], j) == ConflictsEarlier(endpoints, j)
  {
    hide Conflicts;
    if ConflictsEarlier(endpoints, j) {
      var i :| 0 <= i < j && Conflicts(endpoints[i].endpoint, endpoints[j].endpoint);
      assert Conflicts(endpoints[..n][i].endpoint, endpoints[..n][j].endpoint);
    }
  }

  lemma BlamedStep(endpoints: seq<Owned>, e: Owned)
    requires endpoints != []
    requires var n := |endpoints| - 1;
      e in Blamed(endpoints[..n]) <==> exists j :: 0 <= j < n && endpoints[..n][j] == e && ConflictsEarlier(endpoints[..n], j)
    requires forall j :: 0 <= j < |endpoints| - 1 ==> ConflictsEarlier(endpoints[..|endpoints| - 1], j) == ConflictsEarlier(endpoints, j)
    ensures e in Blamed(endpoints) <==> exists j :: 0 <= j < |endpoints| && endpoints[j] == e && ConflictsEarlier(endpoints, j)
  {
    hide ConflictsEarlier;
    var n := |endpoints| - 1;
    if e in Blamed(endpoints[..n]) {
      var j :| 0 <= j < n && endpoints[..n][j] == e && ConflictsEarlier(endpoints[..n], j);
      assert endpoints[j] == e && ConflictsEarlier(endpoints, j);
    }
    if j :| 0 <= j < |endpoints| && endpoints[j] == e && ConflictsEarlier(endpoints, j) {
      if j < n { assert endpoints[..n][j] == e && ConflictsEarlier(endpoints[..n], j); }
    }
  }

  lemma NobodyBlamedIff(endpoints: seq<Owned>)
    ensures Blamed(endpoints) == [] <==> ConflictFree(endpoints)
  {
    hide Conflicts;
    BlamedAre(endpoints);
    if Blamed(endpoints) != [] {
      assert Blamed(endpoints)[0] in Blamed(endpoints);
    } else {
      forall i, j | 0 <= i < j < |endpoints| ensures !Conflicts(endpoints[i].endpoint, endpoints[j].endpoint) {
        assert endpoints[j] !in Blamed(endpoints);
        assert !ConflictsEarlier(endpoints, j);
      }
    }
  }

  // ---------- A configuration without listen conflicts has one rule per listener ----------

  function CountAt(endpoints: seq<Owned>, n: Endpoint): nat
  {
    if endpoints == [] then 0
    else CountAt(endpoints[..|endpoints| - 1], n) + if endpoints[|endpoints| - 1].endpoint == n then 1 else 0
  }

  lemma {:induction false} CountAppend(a: seq<Owned>, b: seq<Owned>, n: Endpoint)
    ensures CountAt(a + b, n) == CountAt(a, n) + CountAt(b, n)
  {
    if b == [] {
      assert a + b == a;
    } else {
      CountAppend(a, b[..|b| - 1], n);
      assert (a + b)[..|a + b| - 1] == a + b[..|b| - 1];
    }
  }

  lemma {:induction false} EdgesCount(g: ForwardingGraph.Graph, r: Rule, networks: seq<Network>, n: Endpoint)
    ensures |LoopCheck.RulesAt(LoopCheck.WithEdges(g, r, networks), n)| == |LoopCheck.RulesAt(g, n)| + CountAt(OwnedOn(r, networks), n)
    ensures n in LoopCheck.WithEdges(g, r, networks) ==> n in g || |LoopCheck.RulesAt(LoopCheck.WithEdges(g, r, networks), n)| > 0
  {
    hide LoopCheck.ListenNode, LoopCheck.Edge;
    if networks != [] {
      var last := |networks| - 1;
      EdgesCount(g, r, networks[..last], n);
      assert OwnedOn(r, networks)[..last] == OwnedOn(r, networks[..last]);
    }
  }

  /** As many edges leave a listener as endpoints claim it, and every node has one. */
  lemma {:induction false} GraphCounts(rules: seq<Rule>, n: Endpoint)
    ensures |LoopCheck.RulesAt(LoopCheck.GraphOf(rules), n)| == CountAt(AllEndpoints(rules), n)
    ensures n in LoopCheck.GraphOf(rules) ==> |LoopCheck.GraphOf(rules)[n]| > 0
  {
    if rules != [] {
      var last := rules[|rules| - 1];
      var before := rules[..|rules| - 1];
      GraphCounts(before, n);
      CountAppend(AllEndpoints(before), EndpointsForRule(last), n);
      EdgesCount(LoopCheck.GraphOf(before), last, LoopCheck.ForwardedNetworks(last.protocol), n);
    }
  }

  lemma {:induction false} ConflictFreeCountsOnce(endpoints: seq<Owned>, n: Endpoint)
    requires ConflictFree(endpoints)
    ensures CountAt(endpoints, n) <= 1
    ensures CountAt(endpoints, n) == 1 ==> exists i :: 0 <= i < |endpoints| && endpoints[i].endpoint == n
  {
    if endpoints != [] {
      var last := |endpoints| - 1;
      ConflictFreeCountsOnce(endpoints[..last], n);
      if CountAt(endpoints[..last], n) == 1 {
        var i :| 0 <= i < last && endpoints[..last][i].endpoint == n;
        assert endpoints[i].endpoint == n;
        assert !Conflicts(endpoints[i].endpoint, endpoints[last].endpoint);
      }
    }
  }

  /** So whenever the listen check finds nothing, the loop check blames exactly the rules on a loop. */
  lemma ConflictFreeMeansOneRuleEach(rules: seq<Rule>)
    requires ConflictFree(AllEndpoints(rules))
    ensures ForwardingGraph.OneRuleEach(LoopCheck.GraphOf(rules))
  {
    forall n | n in LoopCheck.GraphOf(rules) ensures |LoopCheck.GraphOf(rules)[n]| == 1 {
      GraphCounts(rules, n);
      ConflictFreeCountsOnce(AllEndpoints(rules), n);
    }
  }
}

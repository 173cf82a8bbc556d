/** The collector's maps and the counter objects runners write to.

    Counter objects live in an explicit heap: a `Ref` is a pointer, so a rule
    that is removed and recreated gets a different counter than the one an
    earlier runner was bound to. */
module Collector {
  import opened Wrappers
  import opened Rules

  type Ref = nat

  datatype Totals = Totals(upload: nat, download: nat, denied: nat, rejected: nat, dropped: nat, quotaRejected: nat)

  const ZERO := Totals(0, 0, 0, 0, 0, 0)

  function Plus(a: Totals, b: Totals): Totals
  {
    Totals(a.upload + b.upload, a.download + b.download, a.denied + b.denied,
           a.rejected + b.rejected, a.dropped + b.dropped, a.quotaRejected + b.quotaRejected)
  }

  predicate AtMost(a: Totals, b: Totals)
  {
    a.upload <= b.upload && a.download <= b.download && a.denied <= b.denied &&
    a.rejected <= b.rejected && a.dropped <= b.dropped && a.quotaRejected <= b.quotaRejected
  }

  /** Cumulative totals and the live connection gauge. */
  datatype Counter = Counter(totals: Totals, conns: int)

  datatype State = State(
    counters: map<string, Ref>,
    heap: map<Ref, Counter>,
    nextRef: Ref,
    protocols: map<string, Protocol>,
    bandwidths: map<string, Bandwidth>,
    quotas: map<string, TrafficQuota>)

  /** Pointers are allocated, distinct rules have distinct counters. */
  predicate Ok(c: State)
  {
    (forall id :: id in c.counters ==> c.counters[id] in c.heap) &&
    (forall id1, id2 :: id1 in c.counters && id2 in c.counters && c.counters[id1] == c.counters[id2] ==> id1 == id2) &&
    (forall r :: r in c.heap ==> r < c.nextRef)
  }

  // ---------- Operations ----------

  /** The rule's counter, created when missing. */
  function GetCounter(c: State, id: string): State
  {
    if id in c.counters then c
    else c.(counters := c.counters[id := c.nextRef], heap := c.heap[c.nextRef := Counter(ZERO, 0)], nextRef := c.nextRef + 1)
  }

  function EnsureRuleProtocol(c: State, id: string, p: Protocol): State
  {
    var c1 := GetCounter(c, id);
    c1.(protocols := c1.protocols[id := p])
  }

  function SetBandwidthPolicy(c: State, id: string, limit: Option<Bandwidth>): State
  {
    c.(bandwidths := if limit.None? then c.bandwidths - {id} else c.bandwidths[id := limit.value])
  }

  function SetQuotaPolicy(c: State, id: string, quota: Option<TrafficQuota>): State
  {
    c.(quotas := if quota.None? then c.quotas - {id} else c.quotas[id := quota.value])
  }

  function EnsureMetadata(c: State, rule: Rule): State
  {
    SetQuotaPolicy(SetBandwidthPolicy(EnsureRuleProtocol(c, rule.ruleId, rule.protocol), rule.ruleId, rule.bandwidth),
                   rule.ruleId, rule.quota)
  }

  function RemoveRule(c: State, id: string): State
  {
    if id == "" then c
    else c.(counters := c.counters - {id}, protocols := c.protocols - {id},
            bandwidths := c.bandwidths - {id}, quotas := c.quotas - {id})
  }

  function SetConns(c: State, id: string, value: int): State
  {
    var c1 := GetCounter(c, id);
    var r := c1.counters[id];
    if r in c1.heap then c1.(heap := c1.heap[r := c1.heap[r].(conns := value)]) else c1
  }

  function AddTo(c: State, r: Ref, t: Totals): State
  {
    if r in c.heap then c.(heap := c.heap[r := c.heap[r].(totals := Plus(c.heap[r].totals, t))]) else c
  }

  /** Live runners forward traffic: every counter one of them writes to may grow. */
  function Forward(c: State, writers: set<Ref>, traffic: map<Ref, Totals>): State
  {
    c.(heap := map r | r in c.heap ::
         if r in writers && r in traffic then c.heap[r].(totals := Plus(c.heap[r].totals, traffic[r])) else c.heap[r])
  }

  // ---------- Snapshot and restore ----------

  datatype SavedCounter = SavedCounter(id: string, counter: Ref, totals: Totals)

  /** `counters` lists the saved counters in whatever order the map was walked. */
  datatype Snapshot = Snapshot(
    counters: seq<SavedCounter>,
    protocols: map<string, Protocol>,
    bandwidths: map<string, Bandwidth>,
    quotas: map<string, TrafficQuota>)

  predicate SavedOf(c: State, e: SavedCounter)
  {
    e.id in c.counters && e.counter == c.counters[e.id] && e.counter in c.heap && e.totals == c.heap[e.counter].totals
  }

  predicate DistinctIds(entries: seq<SavedCounter>)
  {
    forall i, j :: 0 <= i < j < |entries| ==> entries[i].id != entries[j].id
  }

  predicate Lists(entries: seq<SavedCounter>, id: string)
  {
    exists i :: 0 <= i < |entries| && entries[i].id == id
  }

  lemma ListsSnoc(entries: seq<SavedCounter>, e: SavedCounter)
    ensures forall id :: Lists(entries + [e], id) <==> Lists(entries, id) || id == e.id
  {
    forall id | Lists(entries, id) ensures Lists(entries + [e], id) {
      var i :| 0 <= i < |entries| && entries[i].id == id;
      assert (entries + [e])[i].id == id;
    }
    assert (entries + [e])[|entries|].id == e.id;
  }

  predicate IsSnapshot(c: State, s: Snapshot)
  {
    s.protocols == c.protocols && s.bandwidths == c.bandwidths && s.quotas == c.quotas && DistinctIds(s.counters) &&
    (forall i :: 0 <= i < |s.counters| ==> SavedOf(c, s.counters[i])) &&
    (forall id :: id in c.counters ==> Lists(s.counters, id))
  }

  /** One saved counter put back: kept if it survived, recreated or merged otherwise. */
  function RestoreCounter(c: State, e: SavedCounter): State
  {
    if e.id in c.counters && c.counters[e.id] == e.counter then c
    else var c1 := GetCounter(c, e.id); AddTo(c1, c1.counters[e.id], e.totals)
  }

  function RestoreCounters(c: State, entries: seq<SavedCounter>): State
    decreases |entries|
  {
    if entries == [] then c else RestoreCounters(RestoreCounter(c, entries[0]), entries[1..])
  }

  function DropUnsaved(c: State, entries: seq<SavedCounter>): State
  {
    c.(counters := map id | id in c.counters && Lists(entries, id) :: c.counters[id])
  }

  function Restore(c: State, s: Snapshot): State
  {
    RestoreCounters(DropUnsaved(c, s.counters), s.counters)
      .(protocols := s.protocols, bandwidths := s.bandwidths, quotas := s.quotas)
  }

  // ---------- How counters evolve ----------

  function Before(c0: State, r: Ref): Totals { if r in c0.heap then c0.heap[r].totals else ZERO }

  /** From `c0` to `c` no counter object lost anything it had counted; when
      `quiet`, none gained anything either.  A rule's counter is the one it had
      in `c0` or a newer object. */
  predicate Grows(c0: State, c: State, quiet: bool)
  {
    c0.heap.Keys <= c.heap.Keys && c0.nextRef <= c.nextRef &&
    (forall r :: r in c.heap ==> AtMost(Before(c0, r), c.heap[r].totals)) &&
    (quiet ==> forall r :: r in c.heap ==> c.heap[r].totals == Before(c0, r)) &&
    (forall id :: id in c.counters ==> (id in c0.counters && c.counters[id] == c0.counters[id]) || c.counters[id] !in c0.heap)
  }

  lemma GrowsTransitive(c0: State, c1: State, c2: State, quiet: bool)
    requires Grows(c0, c1, quiet) && Grows(c1, c2, quiet)
    ensures Grows(c0, c2, quiet)
  {
  }

  lemma GetCounterOk(c: State, id: string)
    requires Ok(c)
    ensures Ok(GetCounter(c, id))
  {
  }

  lemma GetCounterGrows(c: State, id: string)
    requires Ok(c)
    ensures Grows(c, GetCounter(c, id), true)
  {
  }

  lemma GetCounterFacts(c: State, id: string)
    requires Ok(c)
    ensures var c' := GetCounter(c, id);
      Ok(c') && Grows(c, c', true) && id in c'.counters &&
      (forall k :: k in c.counters ==> k in c'.counters && c'.counters[k] == c.counters[k]) &&
      (forall k :: k in c'.counters ==> k in c.counters || k == id)
  {
    hide Ok, Grows;
    GetCounterOk(c, id);
    GetCounterGrows(c, id);
  }

  lemma EnsureMetadataFacts(c: State, rule: Rule)
    requires Ok(c)
    ensures var c' := EnsureMetadata(c, rule);
      Ok(c') && Grows(c, c', true) && c'.counters == GetCounter(c, rule.ruleId).counters && c'.heap == GetCounter(c, rule.ruleId).heap
  {
    GetCounterFacts(c, rule.ruleId);
  }

  lemma SetConnsFacts(c: State, id: string, value: int)
    requires Ok(c)
    ensures var c' := SetConns(c, id, value);
      Ok(c') && Grows(c, c', true) && c'.counters == GetCounter(c, id).counters
  {
    GetCounterFacts(c, id);
  }

  lemma RemoveRuleFacts(c: State, id: string)
    requires Ok(c)
    ensures Ok(RemoveRule(c, id)) && Grows(c, RemoveRule(c, id), true)
  {
  }

  predicate Silent(traffic: map<Ref, Totals>) { forall r :: r in traffic ==> traffic[r] == ZERO }

  lemma ForwardFacts(c: State, writers: set<Ref>, traffic: map<Ref, Totals>, quiet: bool)
    requires Ok(c) && (quiet ==> Silent(traffic))
    ensures var c' := Forward(c, writers, traffic);
      Ok(c') && Grows(c, c', quiet) && c'.counters == c.counters && c'.nextRef == c.nextRef
  {
  }

  // ---------- What restoring achieves ----------

  function TotalsOf(c: State, id: string): Totals
  {
    if id in c.counters && c.counters[id] in c.heap then c.heap[c.counters[id]].totals else ZERO
  }

  /** The rule's cumulative history is back: nothing saved is missing and, if quiet, nothing is counted twice. */
  predicate Recovered(c: State, e: SavedCounter, quiet: bool)
  {
    e.id in c.counters && AtMost(e.totals, TotalsOf(c, e.id)) && (quiet ==> TotalsOf(c, e.id) == e.totals)
  }

  /** What a restore makes of one saved rule: a surviving counter keeps what it
      has counted; any other has the saved totals added to its own, once. */
  function RestoredTotals(c: State, id: string, saved: Ref, totals: Totals): Totals
  {
    if id in c.counters && c.counters[id] == saved then TotalsOf(c, id) else Plus(TotalsOf(c, id), totals)
  }

  function RestoredEntry(c: State, e: SavedCounter): Totals { RestoredTotals(c, e.id, e.counter, e.totals) }

  predicate Recoverable(c: State, e: SavedCounter, quiet: bool)
  {
    e.id in c.counters ==>
      if c.counters[e.id] == e.counter
      then AtMost(e.totals, TotalsOf(c, e.id)) && (quiet ==> TotalsOf(c, e.id) == e.totals)
      else quiet ==> TotalsOf(c, e.id) == ZERO
  }

  lemma AddToFacts(c: State, id: string, t: Totals)
    requires Ok(c) && id in c.counters
    ensures var c' := AddTo(c, c.counters[id], t);
      && Ok(c') && c'.counters == c.counters
      && TotalsOf(c', id) == Plus(TotalsOf(c, id), t)
      && (forall k :: k in c.counters && k != id ==> TotalsOf(c', k) == TotalsOf(c, k))
  {
  }

  lemma NewCounterIsZero(c: State, id: string)
    requires Ok(c)
    ensures id !in c.counters ==> TotalsOf(GetCounter(c, id), id) == ZERO
    ensures forall k :: k in c.counters ==> TotalsOf(GetCounter(c, id), k) == TotalsOf(c, k)
  {
  }

  lemma RestoreCounterFacts(c: State, e: SavedCounter, quiet: bool)
    requires Ok(c) && Recoverable(c, e, quiet)
    ensures var c' := RestoreCounter(c, e);
      && Ok(c') && Recovered(c', e, quiet)
      && TotalsOf(c', e.id) == RestoredEntry(c, e)
      && c'.counters.Keys == c.counters.Keys + {e.id}
      && (forall id :: id in c.counters ==> c'.counters[id] == c.counters[id])
      && (forall id :: id in c.counters && id != e.id ==> TotalsOf(c', id) == TotalsOf(c, id))
  {
    if !(e.id in c.counters && c.counters[e.id] == e.counter) {
      GetCounterFacts(c, e.id);
      NewCounterIsZero(c, e.id);
      AddToFacts(GetCounter(c, e.id), e.id, e.totals);
    }
  }

  /** What is decided about one entry depends only on its own rule's counter. */
  lemma SameCounterSameVerdict(c: State, c': State, e: SavedCounter, quiet: bool)
    requires e.id in c'.counters <==> e.id in c.counters
    requires e.id in c.counters ==> c'.counters[e.id] == c.counters[e.id] && TotalsOf(c', e.id) == TotalsOf(c, e.id)
    ensures Recoverable(c, e, quiet) ==> Recoverable(c', e, quiet)
    ensures Recovered(c, e, quiet) ==> Recovered(c', e, quiet)
    ensures TotalsOf(c', e.id) == TotalsOf(c, e.id) && RestoredEntry(c', e) == RestoredEntry(c, e)
  {
  }

  lemma {:induction false} RestoreCountersFacts(c: State, entries: seq<SavedCounter>, quiet: bool)
    requires Ok(c) && DistinctIds(entries)
    requires forall i :: 0 <= i < |entries| ==> Recoverable(c, entries[i], quiet)
    ensures var c' := RestoreCounters(c, entries);
      && Ok(c')
      && (forall i :: 0 <= i < |entries| ==> Recovered(c', entries[i], quiet) && TotalsOf(c', entries[i].id) == RestoredEntry(c, entries[i]))
      && (forall id :: id in c.counters ==> id in c'.counters && c'.counters[id] == c.counters[id])
      && (forall id :: id in c'.counters ==> id in c.counters || Lists(entries, id))
      && (forall id :: id in c.counters && !Lists(entries, id) ==> TotalsOf(c', id) == TotalsOf(c, id))
    decreases |entries|
  {
    hide Ok, Recovered, Recoverable, RestoreCounter, TotalsOf, RestoredEntry;
    if entries != [] {
      var e, rest := entries[0], entries[1..];
      var c1 := RestoreCounter(c, e);
      RestoreCounterFacts(c, e, quiet);
      assert !Lists(rest, e.id);
      forall i | 0 <= i < |rest| ensures Recoverable(c1, rest[i], quiet) && RestoredEntry(c1, rest[i]) == RestoredEntry(c, rest[i]) {
        assert rest[i] == entries[i + 1] && rest[i].id != e.id;
        SameCounterSameVerdict(c, c1, rest[i], quiet);
      }
      RestoreCountersFacts(c1, rest, quiet);
      var c' := RestoreCounters(c, entries);
      assert c' == RestoreCounters(c1, rest);
      assert Lists(entries, e.id);
      forall i | 0 <= i < |entries| ensures Recovered(c', entries[i], quiet) && TotalsOf(c', entries[i].id) == RestoredEntry(c, entries[i]) {
        if i > 0 { assert entries[i] == rest[i - 1]; } else { SameCounterSameVerdict(c1, c', e, quiet); }
      }
      forall id | Lists(rest, id) ensures Lists(entries, id) {
        var i :| 0 <= i < |rest| && rest[i].id == id;
        assert entries[i + 1].id == id;
      }
    }
  }

  lemma DroppedRecoverable(c0: State, c: State, s: Snapshot, quiet: bool, i: nat)
    requires Ok(c0) && Ok(c) && IsSnapshot(c0, s) && Grows(c0, c, quiet) && i < |s.counters|
    ensures Recoverable(DropUnsaved(c, s.counters), s.counters[i], quiet)
  {
    assert SavedOf(c0, s.counters[i]);
  }

  lemma SavedIds(c0: State, s: Snapshot)
    requires IsSnapshot(c0, s)
    ensures forall id :: Lists(s.counters, id) <==> id in c0.counters
  {
    forall id | Lists(s.counters, id) ensures id in c0.counters {
      var i :| 0 <= i < |s.counters| && s.counters[i].id == id;
      assert SavedOf(c0, s.counters[i]);
    }
  }

  lemma RecoveredTotals(c0: State, r: State, s: Snapshot, quiet: bool, id: string)
    requires IsSnapshot(c0, s) && id in c0.counters
    requires forall i :: 0 <= i < |s.counters| ==> Recovered(r, s.counters[i], quiet)
    ensures id in r.counters && AtMost(TotalsOf(c0, id), TotalsOf(r, id))
    ensures quiet ==> TotalsOf(r, id) == TotalsOf(c0, id)
  {
    assert Lists(s.counters, id);
    var i :| 0 <= i < |s.counters| && s.counters[i].id == id;
    assert SavedOf(c0, s.counters[i]) && Recovered(r, s.counters[i], quiet);
  }

  lemma ExactTotals(c0: State, c: State, r: State, s: Snapshot, id: string)
    requires IsSnapshot(c0, s) && id in c0.counters
    requires forall i :: 0 <= i < |s.counters| ==> TotalsOf(r, s.counters[i].id) == RestoredEntry(DropUnsaved(c, s.counters), s.counters[i])
    ensures TotalsOf(r, id) == RestoredTotals(c, id, c0.counters[id], TotalsOf(c0, id))
  {
    assert Lists(s.counters, id);
    var i :| 0 <= i < |s.counters| && s.counters[i].id == id;
    assert SavedOf(c0, s.counters[i]);
  }

  lemma DroppedReady(c0: State, c: State, s: Snapshot, quiet: bool)
    requires Ok(c0) && Ok(c) && IsSnapshot(c0, s) && Grows(c0, c, quiet)
    ensures var d := DropUnsaved(c, s.counters);
      && Ok(d)
      && (forall i :: 0 <= i < |s.counters| ==> Recoverable(d, s.counters[i], quiet))
      && (forall id :: id in d.counters <==> id in c.counters && id in c0.counters)
      && (forall id :: id in d.counters ==> d.counters[id] == c.counters[id])
  {
    SavedIds(c0, s);
    forall i | 0 <= i < |s.counters| ensures Recoverable(DropUnsaved(c, s.counters), s.counters[i], quiet) {
      DroppedRecoverable(c0, c, s, quiet, i);
    }
  }

  lemma RestoredHeap(c0: State, d: State, s: Snapshot, quiet: bool)
    requires Ok(d) && IsSnapshot(c0, s)
    requires forall i :: 0 <= i < |s.counters| ==> Recoverable(d, s.counters[i], quiet)
    requires forall id :: id in d.counters ==> id in c0.counters
    ensures var r := RestoreCounters(d, s.counters);
      && Ok(r)
      && r.counters.Keys == c0.counters.Keys
      && (forall i :: 0 <= i < |s.counters| ==> Recovered(r, s.counters[i], quiet) && TotalsOf(r, s.counters[i].id) == RestoredEntry(d, s.counters[i]))
      && (forall id :: id in d.counters ==> r.counters[id] == d.counters[id])
  {
    RestoreCountersFacts(d, s.counters, quiet);
    SavedIds(c0, s);
    var r := RestoreCounters(d, s.counters);
    forall id | id in c0.counters ensures id in r.counters { RecoveredTotals(c0, r, s, quiet, id); }
  }

  /** Restoring a snapshot after any growth brings back every saved rule's
      history exactly once, keeps the surviving counter objects, and drops the rest. */
  lemma RestoreFacts(c0: State, c: State, s: Snapshot, quiet: bool)
    requires Ok(c0) && Ok(c) && IsSnapshot(c0, s) && Grows(c0, c, quiet)
    ensures var c' := Restore(c, s);
      && Ok(c')
      && c'.counters.Keys == c0.counters.Keys
      && c'.protocols == c0.protocols && c'.bandwidths == c0.bandwidths && c'.quotas == c0.quotas
      && (forall id :: id in c.counters && id in c0.counters ==> c'.counters[id] == c.counters[id])
      && (forall id :: id in c0.counters ==> AtMost(TotalsOf(c0, id), TotalsOf(c', id)))
      && (forall id :: id in c0.counters ==> TotalsOf(c', id) == RestoredTotals(c, id, c0.counters[id], TotalsOf(c0, id)))
      && (quiet ==> forall id :: id in c0.counters ==> TotalsOf(c', id) == TotalsOf(c0, id))
  {
    hide Grows, Recovered, Recoverable, RestoreCounters;
    DroppedReady(c0, c, s, quiet);
    RestoredHeap(c0, DropUnsaved(c, s.counters), s, quiet);
    var r := RestoreCounters(DropUnsaved(c, s.counters), s.counters);
    var c' := Restore(c, s);
    forall id | id in c0.counters
      ensures AtMost(TotalsOf(c0, id), TotalsOf(c', id)) && (quiet ==> TotalsOf(c', id) == TotalsOf(c0, id))
      ensures TotalsOf(c', id) == RestoredTotals(c, id, c0.counters[id], TotalsOf(c0, id))
    {
      RecoveredTotals(c0, r, s, quiet, id);
      ExactTotals(c0, c, r, s, id);
      assert TotalsOf(c', id) == TotalsOf(r, id);
    }
  }
}

/** The ledger itself: the fields guarded by its mutex and one method per critical section. */
module QuotaLedger {
  import opened Wrappers
  import M = QuotaModel

  /** A period's key in the state file; None is the empty key. */
  type PeriodKey = Option<M.Period>

  /** One record of the quota state file. */
  datatype Record = Record(ruleId: M.RuleId, daily: map<PeriodKey, int>, monthly: map<PeriodKey, int>)

  predicate PeriodsOk(source: map<PeriodKey, int>)
  {
    forall k :: k in source ==> k.Some? && source[k] >= 0
  }

  function Periods(source: map<PeriodKey, int>): map<M.Period, int>
  {
    map k | k in source && k.Some? :: k.value := source[k]
  }

  function Keyed(periods: map<M.Period, int>): map<PeriodKey, int>
  {
    map p | p in periods :: Some(p) := periods[p]
  }

  predicate NonNegative(periods: map<M.Period, int>)
  {
    forall p :: p in periods ==> periods[p] >= 0
  }

  lemma KeyedReadsBack(periods: map<M.Period, int>)
    ensures Periods(Keyed(periods)) == periods
    ensures PeriodsOk(Keyed(periods)) <==> NonNegative(periods)
  {
    var keyed := Keyed(periods);
    forall p ensures p in Periods(keyed) <==> p in periods {
      if p in periods { assert Some(p) in keyed; }
    }
    forall p | p in periods ensures keyed[Some(p)] == periods[p] {}
  }

  predicate DistinctRules(records: seq<Record>)
  {
    forall i, j :: 0 <= i < j < |records| ==> records[i].ruleId != records[j].ruleId
  }

  predicate Loadable(records: seq<Record>)
  {
    DistinctRules(records) &&
    forall i :: 0 <= i < |records| ==> RecordOk(records[i])
  }

  /** The content a list of records stands for. */
  predicate Holds(records: seq<Record>, content: M.Content)
  {
    && |records| == |content|
    && forall i :: 0 <= i < |records| ==>
         records[i].ruleId in content && content[records[i].ruleId] == MarksOf(records[i])
  }

  function MarksOf(record: Record): M.Marks { M.Marks(Periods(record.daily), Periods(record.monthly)) }

  predicate RecordOk(record: Record)
  {
    record.ruleId != "" && PeriodsOk(record.daily) && PeriodsOk(record.monthly)
  }

  /** Reads one rule's periods; an empty key or a negative count is an error. */
  method RestoreQuotaPeriods(source: map<PeriodKey, int>) returns (r: Option<map<M.Period, int>>)
    ensures r.Some? <==> PeriodsOk(source)
    ensures r.Some? ==> r.value == Periods(source)
  {
    var used: map<M.Period, int> := map[];
    var items := source.Items;
    while items != {}
      invariant items <= source.Items
      invariant forall k :: k in source && (k, source[k]) !in items ==> k.Some? && source[k] >= 0
      invariant forall p :: p in used <==> Some(p) in source && (Some(p), source[Some(p)]) !in items
      invariant forall p :: p in used ==> used[p] == source[Some(p)]
      decreases items
    {
      var item :| item in items;
      assert item.0 in source && source[item.0] == item.1;
      if item.0.None? || item.1 < 0 { return None; }
      used := used[item.0.value := item.1];
      items := items - {item};
    }
    forall p ensures p in used <==> p in Periods(source) {
      if p in used { assert Some(p) in source; }
    }
    return Some(used);
  }

  /** Validates what the store returned; any bad record stops the start-up. */
  method LoadRecords(records: seq<Record>) returns (r: Option<M.Content>)
    ensures r.Some? <==> Loadable(records)
    ensures r.Some? ==> Holds(records, r.value)
    ensures r.Some? ==> forall id :: id in r.value ==> exists i :: 0 <= i < |records| && records[i].ruleId == id
  {
    hide Periods, PeriodsOk;
    var states: M.Content := map[];
    for i := 0 to |records|
      invariant Holds(records[..i], states) && Loadable(records[..i])
      invariant forall id :: id in states ==> exists j :: 0 <= j < i && records[j].ruleId == id
    {
      var record := records[i];
      assert records[..i + 1] == records[..i] + [record];
      if record.ruleId == "" { return None; }
      if record.ruleId in states { return None; }
      var daily := RestoreQuotaPeriods(record.daily);
      var monthly := RestoreQuotaPeriods(record.monthly);
      if daily.None? || monthly.None? { return None; }
      states := states[record.ruleId := M.Marks(daily.value, monthly.value)];
    }
    assert records[..|records|] == records;
    return Some(states);
  }

  /** The records of a save, one per rule. */
  method RecordsOf(content: M.Content) returns (records: seq<Record>)
    ensures Holds(records, content) && DistinctRules(records)
    ensures forall i :: 0 <= i < |records| ==> IsRecordOf(records[i], content)
  {
    hide Periods, Keyed;
    records := [];
    var ids := content.Keys;
    while ids != {}
      invariant ids <= content.Keys
      invariant DistinctRules(records)
      invariant forall i :: 0 <= i < |records| ==> IsRecordOf(records[i], content) && records[i].ruleId !in ids
      invariant |records| + |ids| == |content|
      decreases ids
    {
      var id :| id in ids;
      records := records + [Record(id, Keyed(content[id].daily), Keyed(content[id].monthly))];
      ids := ids - {id};
    }
    forall i | 0 <= i < |records| ensures content[records[i].ruleId] == MarksOf(records[i]) {
      KeyedReadsBack(content[records[i].ruleId].daily);
      KeyedReadsBack(content[records[i].ruleId].monthly);
    }
  }

  predicate IsRecordOf(record: Record, content: M.Content)
  {
    record.ruleId in content &&
    record == Record(record.ruleId, Keyed(content[record.ruleId].daily), Keyed(content[record.ruleId].monthly))
  }

  /** Deletes the keys older than `cutoff`, one by one. */
  method PrunePeriodMap(values: map<M.Period, int>, cutoff: M.Period) returns (kept: map<M.Period, int>)
    ensures kept == M.PruneMap(values, cutoff)
  {
    kept := values;
    var items := values.Items;
    while items != {}
      invariant items <= values.Items
      invariant forall p :: p in kept <==> p in values && ((p, values[p]) in items || p >= cutoff)
      invariant forall p :: p in kept ==> kept[p] == values[p]
      decreases items
    {
      var item :| item in items;
      if item.0 < cutoff { kept := kept - {item.0}; }
      items := items - {item};
    }
    forall p ensures p in kept <==> p in values && p >= cutoff {
      if p in values { assert (p, values[p]) !in items; }
    }
  }

  method PruneTrack(t: M.Track, active: M.Period) returns (r: M.Track)
    ensures r == M.PruneTrack(t, active)
  {
    r := t;
    if |t.used| > M.RETAINED_PAST_PERIODS + 1 {
      var cutoff := active + 1 - (M.RETAINED_PAST_PERIODS + 1);
      var used := PrunePeriodMap(t.used, cutoff);
      var durable := PrunePeriodMap(t.durable, cutoff);
      r := M.Track(used, durable);
    }
  }

  /** Grows the period's watermark when the grant needs it, then charges the grant. */
  method ChargePeriod(t: M.Track, p: M.Period, limit: int, allowed: int, chunk: int) returns (r: M.Track, grew: bool)
    requires limit > 0
    ensures r == M.ChargeTrack(t, p, limit, allowed, chunk)
    ensures grew == M.MustGrow(t, p, allowed)
  {
    var durable := t.durable;
    var required := M.At(t.used, p) + allowed;
    grew := M.At(durable, p) < required;
    if grew {
      var target := Max(required, Wrap64(M.At(durable, p) + chunk));
      durable := durable[p := Min(limit, target)];
    }
    r := M.Track(M.Bump(t.used, p, allowed), durable);
  }

  /** The watermark step of a rule: between 64 KiB and 64 MiB, and no more than
      one percent of its smallest limit once that is above 64 KiB. */
  method DurableQuotaChunk(upload: int, download: int, quota: Option<M.Quota>) returns (chunk: int)
    ensures 0x1_0000 <= chunk <= 0x400_0000
    ensures quota.Some? ==> forall kind :: quota.value.Limit(kind) > 0 ==> chunk <= Max(0x1_0000, quota.value.Limit(kind) / 100)
    ensures (quota.None? || forall kind :: quota.value.Limit(kind) <= 0) ==> chunk >= 0x80_0000
  {
    chunk := Max(Wrap64(upload + download), 0x80_0000);
    chunk := Min(Max(chunk, 0x10_0000), 0x400_0000);
    var smallest := 0;
    if quota.Some? {
      var limits := [quota.value.daily, quota.value.monthly];
      for i := 0 to |limits|
        invariant smallest >= 0
        invariant smallest > 0 ==> smallest in limits[..i]
        invariant forall j :: 0 <= j < i && limits[j] > 0 ==> 0 < smallest <= limits[j]
      {
        if limits[i] > 0 && (smallest == 0 || limits[i] < smallest) { smallest := limits[i]; }
      }
      assert limits[0] == quota.value.Limit(M.Daily) && limits[1] == quota.value.Limit(M.Monthly);
    }
    if smallest > 0 {
      chunk := Min(chunk, Max(0x1_0000, smallest / 100));
    }
  }

  class Ledger {
    const hasStore: bool
    var states: map<M.RuleId, M.Usage>
    var flushPending: bool
    var flushErr: bool
    var flushing: bool
    var flushFailAt: M.Time

    function View(): M.Memory
      reads this
    {
      M.Memory(states, flushPending, flushErr, flushing, flushFailAt)
    }

    constructor (hasStore: bool, content: M.Content)
      ensures this.hasStore == hasStore && View() == M.Loaded(content)
    {
      this.hasStore := hasStore;
      states := map id | id in content ::
        M.Usage(M.Track(content[id].daily, content[id].daily), M.Track(content[id].monthly, content[id].monthly));
      flushPending, flushErr, flushing, flushFailAt := false, false, false, 0;
    }

    method EnterGate(now: M.Time) returns (gate: M.Gate)
      modifies this
      ensures (View(), gate) == M.EnterGate(old(View()), now)
    {
      if !flushErr { return M.Pass; }
      if now - flushFailAt < M.RETRY_COOLDOWN { return M.Refuse; }
      flushPending := true;
      if flushing { return M.Refuse; }
      flushing := true;
      gate := M.RetryFlush;
    }

    /** Creates and prunes the rule's usage, then caps the request by what both limits leave. */
    method Admit(req: M.Request) returns (usage: M.Usage, allowed: int)
      modifies this`states
      ensures usage == M.PrunedUsage(old(View()), req) && allowed == M.Allowed(usage, req)
      ensures states == old(states)[req.ruleId := usage]
    {
      var state := if req.ruleId in states then states[req.ruleId] else M.NO_USAGE;
      var daily := PruneTrack(state.daily, req.day);
      var monthly := PruneTrack(state.monthly, req.month);
      usage := M.Usage(daily, monthly);
      states := states[req.ruleId := usage];
      allowed := req.requested;
      if req.quota.daily > 0 {
        allowed := Min(allowed, Max(0, req.quota.daily - M.At(daily.used, req.day)));
      }
      if req.quota.monthly > 0 {
        allowed := Min(allowed, Max(0, req.quota.monthly - M.At(monthly.used, req.month)));
      }
    }

    /** Marks a flush as wanted; the first to do so takes the single-flight guard. */
    method RaiseFlush() returns (startFlush: bool)
      modifies this`flushPending, this`flushing
      ensures flushPending && flushing && startFlush == !old(flushing)
    {
      flushPending := true;
      startFlush := !flushing;
      flushing := true;
    }

    /** Charges an admitted request to its active periods. */
    method Charge(req: M.Request, usage: M.Usage, allowed: int) returns (charged: M.Usage, changed: bool)
      ensures charged == M.ChargedUsage(usage, req, allowed)
      ensures changed == M.WatermarkGrows(usage, req, allowed)
    {
      var chunk := if req.durableChunk <= 0 then M.DEFAULT_DURABLE_CHUNK else req.durableChunk;
      changed := false;
      var daily, monthly := usage.daily, usage.monthly;
      if req.quota.daily > 0 {
        daily, changed := ChargePeriod(daily, req.day, req.quota.daily, allowed, chunk);
      }
      if req.quota.monthly > 0 {
        var grew;
        monthly, grew := ChargePeriod(monthly, req.month, req.quota.monthly, allowed, chunk);
        changed := grew || changed;
      }
      charged := M.Usage(daily, monthly);
    }

    /** The granting critical section of reserve. */
    method GrantLocked(req: M.Request) returns (reservation: Option<M.Reservation>, startFlush: bool)
      modifies this
      ensures View() == M.AfterGrant(old(View()), req, hasStore)
      ensures reservation == if M.Granting(old(View()), req) == 0 then None else Some(M.Reserved(req, M.Granting(old(View()), req)))
      ensures startFlush == (M.RaisesFlush(old(View()), req, hasStore) && !old(flushing))
    {
      var usage, allowed := Admit(req);
      startFlush := false;
      if allowed <= 0 || (req.allOrNothing && allowed < req.requested) {
        return None, false;
      }
      assert M.Granting(old(View()), req) == allowed;
      var charged, changed := Charge(req, usage, allowed);
      assert charged == M.GrantedUsage(old(View()), req);
      if changed && hasStore { startFlush := RaiseFlush(); }
      states := states[req.ruleId := charged];
      reservation := Some(M.Reserved(req, allowed));
    }

    /** The top of a flush round: release the guard, or take a snapshot to save outside the lock. */
    method RoundTop() returns (snapshot: Option<M.Content>)
      modifies this
      ensures (View(), snapshot) == M.FlushTop(old(View()))
    {
      if !flushPending {
        flushErr := false;
        flushing := false;
        return None;
      }
      snapshot := Some(M.DurableContent(View()));
      flushPending := false;
    }

    method SaveFailed(now: M.Time)
      modifies this
      ensures View() == M.FlushFailed(old(View()), now)
    {
      flushErr := true;
      flushFailAt := now;
      flushing := false;
    }

    /** Saves exact usage; `saved` is the store's answer to what this call hands it. */
    method SaveExact(saved: bool) returns (snapshot: M.Content, ok: bool)
      requires hasStore && !flushing
      modifies this
      ensures snapshot == M.DurableContent(M.Exact(old(View()))) == M.UsedContent(old(View()))
      ensures ok == saved
      ensures View() == if ok then M.Exact(old(View())).(flushErr := false) else M.Exact(old(View()))
    {
      flushPending := false;
      states := map id | id in states ::
        M.Usage(states[id].daily.(durable := states[id].daily.used), states[id].monthly.(durable := states[id].monthly.used));
      snapshot := M.DurableContent(View());
      ok := saved;
      if ok { flushErr := false; }
    }

    method RefundLocked(r: M.Reservation, refund: int)
      modifies this
      ensures View() == if r.ruleId in old(states)
                        then old(View()).(states := old(states)[r.ruleId := M.RefundUsage(old(states)[r.ruleId], r, refund)])
                        else old(View())
    {
      if r.ruleId !in states { return; }
      states := states[r.ruleId := M.RefundUsage(states[r.ruleId], r, refund)];
    }
  }

  /** A grant handed to a forwarding goroutine; only the first finish has an effect. */
  class QuotaReservation {
    const ledger: Ledger
    const r: M.Reservation
    var done: bool
    /** Bytes of the charge that stand. */
    ghost var kept: int

    constructor (ledger: Ledger, r: M.Reservation)
      ensures this.ledger == ledger && this.r == r && !done && kept == r.bytes
    {
      this.ledger := ledger;
      this.r := r;
      done := false;
      kept := r.bytes;
    }

    method Finish(written: int)
      modifies this, ledger
      ensures done && kept == if old(done) then old(kept) else M.Clamp(written, r.bytes)
      ensures ledger.View() == if old(done) then old(ledger.View()) else M.Finish(old(ledger.View()), r, written)
    {
      if done { return; }
      var actual := written;
      if actual < 0 { actual := 0; }
      if actual > r.bytes { actual := r.bytes; }
      var refund := r.bytes - actual;
      done := true;
      kept := actual;
      if refund == 0 { return; }
      ledger.RefundLocked(r, refund);
    }
  }

  /** Saving a snapshot and loading it again starts a ledger whose usage is that watermark. */
  method SaveThenLoad(content: M.Content) returns (r: Option<M.Content>)
    requires forall id :: id in content ==> id != "" && NonNegative(content[id].daily) && NonNegative(content[id].monthly)
    ensures r == Some(content)
  {
    hide Periods, Keyed, PeriodsOk;
    var records := RecordsOf(content);
    forall i | 0 <= i < |records| ensures RecordOk(records[i]) {
      KeyedReadsBack(content[records[i].ruleId].daily);
      KeyedReadsBack(content[records[i].ruleId].monthly);
    }
    r := LoadRecords(records);
    assert r.value == content by {
      assert r.value.Keys <= content.Keys;
      SameSize(r.value.Keys, content.Keys);
    }
  }

  lemma SameSize<T>(a: set<T>, b: set<T>)
    requires a <= b && |a| == |b|
    ensures a == b
  {
    if x :| x in b && x !in a {
      Sizes(a, b - {x});
    }
  }

  lemma {:induction false} Sizes<T>(a: set<T>, b: set<T>)
    requires a <= b
    ensures |a| <= |b|
    decreases a
  {
    if a != {} {
      var x :| x in a;
      Sizes(a - {x}, b - {x});
    }
  }
}

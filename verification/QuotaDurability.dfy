/** Durability and the flush protocol: what holds in every reachable state,
    whatever the clock does and however quotas change between calls. */
module QuotaDurability {
  import opened Wrappers
  import opened QuotaModel
  import opened QuotaMachine

  // ---------- Durable watermark never below usage ----------

  predicate TrackOk(t: Track)
  {
    (forall p :: p in t.used ==> 0 <= t.used[p] <= At(t.durable, p)) &&
    (forall p :: p in t.durable ==> 0 <= t.durable[p])
  }

  predicate UsageOk(u: Usage) { TrackOk(u.daily) && TrackOk(u.monthly) }

  predicate MemoryOk(m: Memory)
  {
    forall id :: id in m.states ==> UsageOk(m.states[id])
  }

  lemma PruneKeeps(t: Track, active: Period)
    requires TrackOk(t)
    ensures TrackOk(PruneTrack(t, active))
  {
  }

  lemma ChargeKeeps(t: Track, p: Period, limit: int, allowed: int, chunk: int)
    requires TrackOk(t)
    requires limit > 0 ==> 0 < allowed <= limit - At(t.used, p)
    ensures TrackOk(ChargeTrack(t, p, limit, allowed, chunk))
  {
  }

  /** Admission never exceeds what either limit still leaves. */
  lemma AllowedFits(u: Usage, req: Request)
    ensures Allowed(u, req) <= req.requested
    ensures Allowed(u, req) > 0 && req.quota.daily > 0 ==> Allowed(u, req) <= req.quota.daily - At(u.daily.used, req.day)
    ensures Allowed(u, req) > 0 && req.quota.monthly > 0 ==> Allowed(u, req) <= req.quota.monthly - At(u.monthly.used, req.month)
  {
  }

  lemma GrantKeeps(m: Memory, req: Request, hasStore: bool)
    requires MemoryOk(m)
    ensures MemoryOk(AfterGrant(m, req, hasStore))
  {
    var usage := UsageOf(m, req.ruleId);
    PruneKeeps(usage.daily, req.day);
    PruneKeeps(usage.monthly, req.month);
    var pruned := PrunedUsage(m, req);
    AllowedFits(pruned, req);
    var allowed := Granting(m, req);
    if allowed > 0 {
      ChargeKeeps(pruned.daily, req.day, req.quota.daily, allowed, Chunk(req));
      ChargeKeeps(pruned.monthly, req.month, req.quota.monthly, allowed, Chunk(req));
    }
  }

  lemma FinishKeeps(m: Memory, r: Reservation, written: int)
    requires MemoryOk(m) && r.bytes >= 0
    ensures MemoryOk(Finish(m, r, written))
  {
  }

  // ---------- Coverage of the in-memory watermark by a saved one ----------

  predicate Covers(c: Content, m: Memory)
  {
    forall id, kind, p :: id in m.states && p in m.states[id].Of(kind).durable ==>
      Mark(c, (id, kind, p)) >= m.states[id].Of(kind).durable[p]
  }

  predicate CoversUsed(c: Content, used: Content)
  {
    forall id, kind, p :: id in used && p in used[id].Of(kind) ==> Mark(c, (id, kind, p)) >= used[id].Of(kind)[p]
  }

  lemma OwnContentCovers(m: Memory)
    requires MemoryOk(m)
    ensures Covers(DurableContent(m), m) && CoversUsed(DurableContent(m), UsedContent(m))
  {
    var c := DurableContent(m);
    forall id, kind, p | id in m.states && p in m.states[id].Of(kind).used
      ensures Mark(c, (id, kind, p)) >= m.states[id].Of(kind).used[p]
    {
      assert TrackOk(m.states[id].Of(kind));
    }
  }

  /** A grant that leaves the watermark alone (up to pruning) keeps what a snapshot covers. */
  lemma GrantKeepsCover(c: Content, m: Memory, req: Request)
    requires Covers(c, m) && MemoryOk(m)
    requires !AfterGrant(m, req, true).flushPending
    ensures Covers(c, AfterGrant(m, req, true))
  {
    var m' := AfterGrant(m, req, true);
    forall id, kind, p | id in m'.states && p in m'.states[id].Of(kind).durable
      ensures Mark(c, (id, kind, p)) >= m'.states[id].Of(kind).durable[p]
    {
      if id == req.ruleId {
        var before := UsageOf(m, id).Of(kind);
        assert p in before.durable && m'.states[id].Of(kind).durable[p] == before.durable[p];
      }
    }
  }

  lemma ExactCover(c: Content, m: Memory)
    requires Covers(c, m) && MemoryOk(m)
    requires forall id, kind, p :: Mark(c, (id, kind, p)) >= 0
    ensures Covers(c, Exact(m))
  {
    var m' := Exact(m);
    forall id, kind, p | id in m'.states && p in m'.states[id].Of(kind).durable
      ensures Mark(c, (id, kind, p)) >= m'.states[id].Of(kind).durable[p]
    {
      assert TrackOk(m.states[id].Of(kind));
      assert m'.states[id].Of(kind).durable == m.states[id].Of(kind).used;
      if p in m.states[id].Of(kind).durable {
        assert Mark(c, (id, kind, p)) >= m.states[id].Of(kind).durable[p];
      }
    }
  }

  // ---------- The flush protocol's invariant ----------

  predicate Flushes(p: Phase) { p.AtFlushTop? || p.Saving? }

  predicate ContentOk(c: Content)
  {
    forall id, kind, p :: id in c && p in c[id].Of(kind) ==> 0 <= c[id].Of(kind)[p]
  }

  predicate SnapshotOk(s: Snapshot) { ContentOk(s.content) && CoversUsed(s.content, s.used) }

  /** At most one goroutine is between taking the guard and releasing it, and the guard says so. */
  predicate SingleFlight(s: State)
  {
    (s.mem.flushing <==> exists t :: t in s.threads && Flushes(s.threads[t])) &&
    (forall t, u :: t in s.threads && u in s.threads && Flushes(s.threads[t]) && Flushes(s.threads[u]) ==> t == u)
  }

  /** Snapshots in flight are newer than the stored one. */
  predicate Ordered(s: State)
  {
    s.store.stamp < s.taken && SnapshotOk(s.store) &&
    (forall t :: t in s.threads && s.threads[t].Saving? ==>
      s.store.stamp < s.threads[t].snapshot.stamp < s.taken && SnapshotOk(s.threads[t].snapshot))
  }

  /** Bumps not yet covered are pending, in flight, or behind a recorded failure. */
  predicate NothingLost(s: State)
  {
    (s.mem.flushPending ==> s.mem.flushing || s.mem.flushErr) &&
    (!s.mem.flushing && !s.mem.flushErr ==> Covers(s.store.content, s.mem)) &&
    (forall t :: t in s.threads && s.threads[t].AtFlushTop? && !s.mem.flushPending ==> Covers(s.store.content, s.mem)) &&
    (forall t :: t in s.threads && s.threads[t].Saving? && !s.mem.flushPending ==> Covers(s.threads[t].snapshot.content, s.mem))
  }

  predicate EntriesOk(s: State)
  {
    forall i :: 0 <= i < |s.entries| ==> s.entries[i].r.bytes > 0 && 0 <= s.entries[i].written <= s.entries[i].r.bytes
  }

  predicate FlushInv(s: State)
  {
    MemoryOk(s.mem) && EntriesOk(s) && SingleFlight(s) && Ordered(s) && NothingLost(s)
  }

  lemma MarksNonNegative(c: Content)
    requires ContentOk(c)
    ensures forall id, kind, p :: Mark(c, (id, kind, p)) >= 0
  {
  }

  lemma StartOk(content: Content)
    requires ContentOk(content)
    ensures FlushInv(Start(content))
  {
    var s := Start(content);
    forall id, kind, p | id in s.mem.states && p in s.mem.states[id].Of(kind).durable
      ensures Mark(content, (id, kind, p)) >= s.mem.states[id].Of(kind).durable[p]
    {
    }
    forall id | id in s.mem.states ensures UsageOk(s.mem.states[id]) {
      assert content[id].Of(Daily) == content[id].daily && content[id].Of(Monthly) == content[id].monthly;
    }
  }

  // ---------- Every step keeps it ----------

  /** The parts of a granting section the flush protocol looks at. */
  predicate GrantShape(s: State, s': State, tid: Tid, started: bool)
  {
    && s'.threads == (if started then s.threads[tid := AtFlushTop(Stop)] else s.threads - {tid})
    && s'.store == s.store && s'.taken == s.taken
    && s'.mem.flushErr == s.mem.flushErr
    && s'.mem.flushing == (s.mem.flushing || started)
    && (started ==> !s.mem.flushing && s'.mem.flushPending)
    && (s.mem.flushPending ==> s'.mem.flushPending)
    && (s'.mem.flushPending && !s.mem.flushPending ==> s'.mem.flushing)
  }

  lemma GrantHasShape(s: State, tid: Tid, req: Request)
    requires MemoryOk(s.mem) && EntriesOk(s)
    ensures var s' := DoGrant(s, tid, req);
      MemoryOk(s'.mem) && EntriesOk(s') &&
      GrantShape(s, s', tid, RaisesFlush(s.mem, req, true) && !s.mem.flushing)
  {
    GrantKeeps(s.mem, req, true);
  }

  lemma ShapeKeepsProtocol(s: State, s': State, tid: Tid, started: bool)
    requires SingleFlight(s) && Ordered(s) && NothingLost(s) && GrantShape(s, s', tid, started)
    requires tid in s.threads ==> s.threads[tid].AtGrant?
    requires !s'.mem.flushPending ==> forall c :: Covers(c, s.mem) ==> Covers(c, s'.mem)
    ensures SingleFlight(s') && Ordered(s') && NothingLost(s')
  {
    assert forall t :: t in s.threads && Flushes(s.threads[t]) ==> t in s'.threads && s'.threads[t] == s.threads[t];
    if started { assert Flushes(s'.threads[tid]); }
  }

  lemma GrantStep(s: State, tid: Tid, req: Request)
    requires FlushInv(s)
    requires tid in s.threads ==> s.threads[tid].AtGrant?
    ensures FlushInv(DoGrant(s, tid, req))
  {
    var s' := DoGrant(s, tid, req);
    GrantHasShape(s, tid, req);
    if !s'.mem.flushPending {
      forall c | Covers(c, s.mem) ensures Covers(c, s'.mem) { GrantKeepsCover(c, s.mem, req); }
    }
    ShapeKeepsProtocol(s, s', tid, RaisesFlush(s.mem, req, true) && !s.mem.flushing);
  }

  lemma ReserveStep(s: State, tid: Tid, req: Request, now: Time)
    requires FlushInv(s) && tid !in s.threads
    ensures FlushInv(DoReserve(s, tid, req, now))
  {
    var (mem, gate) := EnterGate(s.mem, now);
    match gate
    case Pass => GrantStep(s, tid, req);
    case Refuse =>
    case RetryFlush =>
      var s' := DoReserve(s, tid, req, now);
      assert Flushes(s'.threads[tid]);
  }

  lemma OwnContentOk(m: Memory)
    requires MemoryOk(m)
    ensures ContentOk(DurableContent(m))
  {
    forall id, kind, p | id in m.states && p in m.states[id].Of(kind).durable
      ensures 0 <= m.states[id].Of(kind).durable[p] { assert TrackOk(m.states[id].Of(kind)); }
  }

  lemma RoundTopStep(s: State, tid: Tid)
    requires FlushInv(s) && tid in s.threads && s.threads[tid].AtFlushTop?
    ensures FlushInv(DoRoundTop(s, tid))
  {
    hide MemoryOk, EntriesOk, Covers, CoversUsed, ContentOk, DurableContent, UsedContent;
    var s' := DoRoundTop(s, tid);
    OwnContentCovers(s.mem);
    OwnContentOk(s.mem);
    assert Flushes(s.threads[tid]);
    if s.mem.flushPending { assert Flushes(s'.threads[tid]); }
    SameEntries(s, s');
    CoverIgnoresFlags(DurableContent(s.mem), s.mem, s'.mem);
    CoverIgnoresFlags(s.store.content, s.mem, s'.mem);
  }

  lemma SaveOkStep(s: State, tid: Tid)
    requires FlushInv(s) && Enabled(s, SaveOk(tid))
    ensures FlushInv(Do(s, SaveOk(tid)))
  {
    var s' := Do(s, SaveOk(tid));
    assert Flushes(s.threads[tid]) && Flushes(s'.threads[tid]);
    assert forall t :: t in s'.threads && Flushes(s'.threads[t]) ==> t == tid;
  }

  lemma SaveFailStep(s: State, tid: Tid, landed: bool, now: Time)
    requires FlushInv(s) && Enabled(s, SaveFail(tid, landed, now))
    ensures FlushInv(Do(s, SaveFail(tid, landed, now)))
  {
    assert Flushes(s.threads[tid]);
  }

  predicate SameWatermark(m: Memory, m': Memory)
  {
    m'.states.Keys == m.states.Keys &&
    forall id :: id in m.states ==>
      m'.states[id].daily.durable == m.states[id].daily.durable && m'.states[id].monthly.durable == m.states[id].monthly.durable
  }

  lemma SameWatermarkCovers(c: Content, m: Memory, m': Memory)
    requires SameWatermark(m, m') && Covers(c, m)
    ensures Covers(c, m')
  {
    forall id, kind, p | id in m'.states && p in m'.states[id].Of(kind).durable
      ensures Mark(c, (id, kind, p)) >= m'.states[id].Of(kind).durable[p]
    {
      assert m'.states[id].Of(kind).durable == m.states[id].Of(kind).durable;
      assert p in m.states[id].Of(kind).durable;
    }
  }

  lemma QuietKeepsProtocol(s: State, s': State)
    requires SingleFlight(s) && Ordered(s) && NothingLost(s)
    requires s'.threads == s.threads && s'.store == s.store && s'.taken == s.taken
    requires s'.mem.flushPending == s.mem.flushPending && s'.mem.flushing == s.mem.flushing && s'.mem.flushErr == s.mem.flushErr
    requires SameWatermark(s.mem, s'.mem)
    ensures SingleFlight(s') && Ordered(s') && NothingLost(s')
  {
    forall c | Covers(c, s.mem) ensures Covers(c, s'.mem) { SameWatermarkCovers(c, s.mem, s'.mem); }
  }

  lemma FinishShape(m: Memory, r: Reservation, written: int)
    ensures var m' := Finish(m, r, written);
      SameWatermark(m, m') && m'.flushPending == m.flushPending && m'.flushing == m.flushing && m'.flushErr == m.flushErr
  {
    hide RefundUsage;
    if r.ruleId in m.states { RefundSameWatermark(m.states[r.ruleId], r, r.bytes - Clamp(written, r.bytes)); }
  }

  lemma RefundSameWatermark(u: Usage, r: Reservation, amount: int)
    ensures RefundUsage(u, r, amount).daily.durable == u.daily.durable
    ensures RefundUsage(u, r, amount).monthly.durable == u.monthly.durable
  {
  }

  lemma EntryFinished(s: State, s': State, i: nat, written: int)
    requires EntriesOk(s) && i < |s.entries|
    requires s'.entries == s.entries[i := Entry(s.entries[i].r, true, Clamp(written, s.entries[i].r.bytes))]
    ensures EntriesOk(s')
  {
  }

  lemma FinishStep(s: State, i: nat, written: int)
    requires FlushInv(s) && Enabled(s, FinishReservation(i, written))
    ensures FlushInv(Do(s, FinishReservation(i, written)))
  {
    var s' := Do(s, FinishReservation(i, written));
    var r := s.entries[i].r;
    assert s'.mem == Finish(s.mem, r, written);
    FinishKeeps(s.mem, r, written);
    FinishShape(s.mem, r, written);
    EntryFinished(s, s', i, written);
    QuietKeepsProtocol(s, s');
  }

  lemma ExactTrack(t: Track)
    requires TrackOk(t)
    ensures TrackOk(t.(durable := t.used))
  {
  }

  lemma ExactMemory(m: Memory)
    requires MemoryOk(m)
    ensures MemoryOk(Exact(m)) && ContentOk(DurableContent(Exact(m)))
  {
    hide TrackOk, ContentOk, DurableContent;
    var mem := Exact(m);
    forall id | id in mem.states ensures UsageOk(mem.states[id]) {
      ExactTrack(m.states[id].daily);
      ExactTrack(m.states[id].monthly);
    }
    OwnContentOk(mem);
  }

  lemma SaveExactStep(s: State, ok: bool, landed: bool)
    requires FlushInv(s) && !s.mem.flushing
    ensures FlushInv(DoSaveExact(s, ok, landed))
  {
    hide MemoryOk, Covers, CoversUsed, ContentOk, EntriesOk, DurableContent, UsedContent;
    var mem := Exact(s.mem);
    ExactMemory(s.mem);
    OwnContentCovers(mem);
    CoverIgnoresFlags(DurableContent(mem), mem, DoSaveExact(s, ok, landed).mem);
    if !s.mem.flushErr {
      MarksNonNegative(s.store.content);
      ExactCover(s.store.content, s.mem);
      CoverIgnoresFlags(s.store.content, mem, DoSaveExact(s, ok, landed).mem);
    }
    SameEntries(s, DoSaveExact(s, ok, landed));
  }

  lemma SameEntries(s: State, s': State)
    requires EntriesOk(s) && s'.entries == s.entries
    ensures EntriesOk(s')
  {
  }

  lemma CoverIgnoresFlags(c: Content, m: Memory, m': Memory)
    requires m'.states == m.states
    ensures Covers(c, m) ==> Covers(c, m')
    ensures MemoryOk(m) ==> MemoryOk(m')
  {
  }

  /** Every step of every interleaving keeps the flush protocol's invariant. */
  lemma StepKeepsFlush(s: State, step: Step)
    requires FlushInv(s) && Enabled(s, step)
    ensures FlushInv(Do(s, step))
  {
    match step
    case Reserve(tid, req, now) => ReserveStep(s, tid, req, now);
    case GrantAfterFlush(tid, day, month) => GrantStep(s, tid, s.threads[tid].req.(day := day, month := month));
    case RoundTop(tid) => RoundTopStep(s, tid);
    case SaveOk(tid) => SaveOkStep(s, tid);
    case SaveFail(tid, landed, now) => SaveFailStep(s, tid, landed, now);
    case FinishReservation(i, written) => FinishStep(s, i, written);
    case SaveExact(ok, landed) => SaveExactStep(s, ok, landed);
    case Crash => StartOk(s.store.content);
  }

  // ---------- Over whole runs ----------

  /** No two saves overlap, and what reaches the store is newer than what it held. */
  lemma StoreAdvances(s: State, step: Step)
    requires FlushInv(s) && Enabled(s, step)
    ensures Do(s, step).store == s.store || s.store.stamp < Do(s, step).store.stamp
    ensures forall t, u :: t in s.threads && u in s.threads && s.threads[t].Saving? && s.threads[u].Saving? ==> t == u
  {
    forall t, u | t in s.threads && u in s.threads && s.threads[t].Saving? && s.threads[u].Saving?
      ensures t == u
    {
      assert Flushes(s.threads[t]) && Flushes(s.threads[u]);
    }
  }

  lemma {:induction false} RunKeepsFlush(s: State, steps: seq<Step>)
    requires FlushInv(s) && Executable(s, steps)
    ensures FlushInv(Run(s, steps))
    ensures s.store.stamp <= Run(s, steps).store.stamp
    decreases |steps|
  {
    if steps != [] {
      StepKeepsFlush(s, steps[0]);
      StoreAdvances(s, steps[0]);
      RunKeepsFlush(Do(s, steps[0]), steps[1..]);
    }
  }

  lemma UsedWithinDurable(m: Memory, slot: Slot)
    requires MemoryOk(m)
    ensures 0 <= Used(m, slot) <= Durable(m, slot)
  {
    if slot.0 in m.states { assert TrackOk(m.states[slot.0].Of(slot.1)); }
  }

  /** The flush protocol in every reachable state: no bump is forgotten, an idle
      and error-free ledger is fully covered by its store, and usage never
      overtakes its durable watermark. */
  lemma FlushProtocol(content: Content, steps: seq<Step>, slot: Slot)
    requires ContentOk(content) && Executable(Start(content), steps)
    ensures var s := Run(Start(content), steps);
      && 0 <= Used(s.mem, slot) <= Durable(s.mem, slot)
      && (s.mem.flushPending ==> s.mem.flushing || s.mem.flushErr)
      && (!s.mem.flushing && !s.mem.flushErr ==> Mark(s.store.content, slot) >= Durable(s.mem, slot))
  {
    StartOk(content);
    RunKeepsFlush(Start(content), steps);
    var s := Run(Start(content), steps);
    UsedWithinDurable(s.mem, slot);
    MarksNonNegative(s.store.content);
  }

  lemma ReloadCovers(stored: Snapshot, slot: Slot)
    requires SnapshotOk(stored)
    ensures Used(Loaded(stored.content), slot) == Mark(stored.content, slot) >= Mark(stored.used, slot)
  {
    MarksNonNegative(stored.content);
    if slot.0 in stored.content {
      assert stored.content[slot.0].Of(slot.1) == Loaded(stored.content).states[slot.0].Of(slot.1).used;
    }
  }

  /** A crash at any step reloads at least the usage there was when the stored
      snapshot was taken; a crash of an idle, error-free ledger loses nothing. */
  lemma CrashNeverForgets(content: Content, steps: seq<Step>, slot: Slot)
    requires ContentOk(content) && Executable(Start(content), steps)
    ensures var s := Run(Start(content), steps);
      && Used(Do(s, Crash).mem, slot) >= Mark(s.store.used, slot)
      && (!s.mem.flushing && !s.mem.flushErr ==> Used(Do(s, Crash).mem, slot) >= Used(s.mem, slot))
  {
    FlushProtocol(content, steps, slot);
    StartOk(content);
    RunKeepsFlush(Start(content), steps);
    ReloadCovers(Run(Start(content), steps).store, slot);
  }

  /** After a save has returned success, a crash any number of steps later reloads
      at least the usage of that save's snapshot or of a newer one. */
  lemma CrashAfterSave(s: State, tid: Tid, later: seq<Step>, slot: Slot)
    requires FlushInv(s) && Enabled(s, SaveOk(tid))
    requires Executable(Do(s, SaveOk(tid)), later)
    ensures var end := Run(Do(s, SaveOk(tid)), later);
      && end.store.stamp >= s.threads[tid].snapshot.stamp > s.store.stamp
      && Used(Do(end, Crash).mem, slot) >= Mark(end.store.used, slot)
      && (later == [] ==> Used(Do(end, Crash).mem, slot) >= Mark(s.threads[tid].snapshot.used, slot))
  {
    var saved := Do(s, SaveOk(tid));
    StepKeepsFlush(s, SaveOk(tid));
    RunKeepsFlush(saved, later);
    var end := Run(saved, later);
    ReloadCovers(end.store, slot);
  }
}

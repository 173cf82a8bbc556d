/** How much usage a crash forgets, and exactly when that is at most the one
    durable chunk the ledger promises. */
module QuotaLoss {
  import opened Wrappers
  import opened QuotaModel
  import opened QuotaMachine
  import opened QuotaDurability
  import opened QuotaAccounting

  /** One period of one budget, with the limit and durable chunk of its rule. */
  datatype Watch = Watch(slot: Slot, limit: int, chunk: int)

  /** Raising a watermark below the limit by a chunk stays within 64 bits. */
  predicate WatchOk(w: Watch) { 0 < w.chunk && w.limit + w.chunk <= MAX_INT64 }

  /** Requests of the watched rule name its limit and its chunk and ask for at
      most that chunk; a TCP buffer is 32 KiB, a datagram at most 64 KiB, and no
      chunk is smaller. */
  predicate Steady(req: Request, w: Watch)
  {
    req.ruleId == w.slot.0 ==> req.quota.Limit(w.slot.1) == w.limit && Chunk(req) == w.chunk && req.requested <= w.chunk
  }

  predicate PhaseSteady(p: Phase, w: Watch)
  {
    match p
    case AtGrant(req) => Steady(req, w)
    case AtFlushTop(next) => next.ThenGrant? ==> Steady(next.req, w)
    case Saving(_, next) => next.ThenGrant? ==> Steady(next.req, w)
  }

  /** Usage that a crash in this state would forget. */
  function Loss(s: State, slot: Slot): int { Used(s.mem, slot) - Used(Do(s, Crash).mem, slot) }

  /** The store already holds this period's whole watermark. */
  predicate Saved(s: State, slot: Slot) { Durable(s.mem, slot) <= Mark(s.store.content, slot) }

  /** Granting this request raises the period's watermark. */
  predicate Raising(m: Memory, req: Request, slot: Slot)
  {
    && slot.0 == req.ruleId && slot.2 == req.Period(slot.1) && req.quota.Limit(slot.1) > 0
    && Granting(m, req) > 0 && Durable(m, slot) < Used(m, slot) + Granting(m, req)
  }

  /** This step is a granting section that raises the period's watermark. */
  predicate Raises(s: State, step: Step, slot: Slot)
    requires Enabled(s, step)
  {
    match step
    case Reserve(_, req, now) => EnterGate(s.mem, now).1.Pass? && Raising(s.mem, req, slot)
    case GrantAfterFlush(tid, day, month) => Raising(s.mem, s.threads[tid].req.(day := day, month := month), slot)
    case _ => false
  }

  predicate ExactFailed(step: Step) { step.SaveExact? && !step.ok && !step.landed }

  /** Steps keep the clock's bound and the rule's terms; the process ends when an
      exact save fails, as it does at start-up and at shutdown. */
  predicate Regular(s: State, steps: seq<Step>, w: Watch)
    requires Executable(s, steps)
    decreases |steps|
  {
    steps != [] ==>
      && Disciplined(s, steps[0])
      && (steps[0].Reserve? ==> Steady(steps[0].req, w))
      && (ExactFailed(steps[0]) ==> steps[1..] == [] || steps[1].Crash?)
      && Regular(Do(s, steps[0]), steps[1..], w)
  }

  /** Wherever the run is cut by a crash, at most one chunk is forgotten. */
  predicate LosesAtMostAChunk(s: State, steps: seq<Step>, w: Watch)
    requires Executable(s, steps)
    decreases |steps|
  {
    Loss(s, w.slot) <= w.chunk && (steps != [] ==> LosesAtMostAChunk(Do(s, steps[0]), steps[1..], w))
  }

  /** No grant raises a watermark whose last raise the store does not hold yet. */
  predicate SavedBeforeRaised(s: State, steps: seq<Step>, slot: Slot)
    requires Executable(s, steps)
    decreases |steps|
  {
    steps != [] ==> (Raises(s, steps[0], slot) ==> Saved(s, slot)) && SavedBeforeRaised(Do(s, steps[0]), steps[1..], slot)
  }

  // ---------- Watermarks rise by whole chunks ----------

  /** The watermark is the saved mark, or at least one chunk above it, or has reached the limit. */
  predicate Apart(durable: int, mark: int, w: Watch)
  {
    mark <= durable && (durable == mark || durable >= mark + w.chunk || durable >= w.limit)
  }

  predicate Layered(s: State, w: Watch)
  {
    var d := Durable(s.mem, w.slot);
    if w.slot in s.dropped then d == 0
    else
      && Apart(d, Mark(s.store.content, w.slot), w)
      && forall t :: t in s.threads && s.threads[t].Saving? ==>
        Mark(s.store.content, w.slot) <= Mark(s.threads[t].snapshot.content, w.slot) && Apart(d, Mark(s.threads[t].snapshot.content, w.slot), w)
  }

  ghost predicate LossInv(s: State, w: Watch)
  {
    AccountInv(s) && (forall t :: t in s.threads ==> PhaseSteady(s.threads[t], w)) && Layered(s, w)
  }

  /** The watermark is at most one chunk above what the store holds or is being given. */
  predicate Near(s: State, w: Watch)
  {
    w.slot !in s.dropped ==>
      && Durable(s.mem, w.slot) <= Mark(s.store.content, w.slot) + w.chunk
      && forall t :: t in s.threads && s.threads[t].Saving? ==>
        Durable(s.mem, w.slot) <= Mark(s.threads[t].snapshot.content, w.slot) + w.chunk
  }

  lemma LossIs(s: State, slot: Slot)
    requires FlushInv(s)
    ensures Loss(s, slot) == Used(s.mem, slot) - Mark(s.store.content, slot)
  {
    ReloadCovers(s.store, slot);
  }

  lemma NearLosesLittle(s: State, w: Watch)
    requires WatchOk(w) && LossInv(s, w) && Near(s, w)
    ensures Loss(s, w.slot) <= w.chunk
  {
    LossIs(s, w.slot);
    UsedWithinDurable(s.mem, w.slot);
    MarksNonNegative(s.store.content);
  }

  // ---------- Granting ----------

  /** The mark a raise sets. */
  function RaisedTo(used: int, durable: int, limit: int, allowed: int, chunk: int): int
  {
    Min(limit, Max(used + allowed, Wrap64(durable + chunk)))
  }

  lemma ChargedWatermark(t: Track, active: Period, limit: int, allowed: int, chunk: int, p: Period)
    ensures At(ChargeTrack(t, active, limit, allowed, chunk).durable, p) ==
      if p == active && limit > 0 && MustGrow(t, p, allowed) then RaisedTo(At(t.used, p), At(t.durable, p), limit, allowed, chunk)
      else At(t.durable, p)
  {
    hide Wrap64;
  }

  lemma PrunedWatermark(t: Track, active: Period, p: Period)
    ensures var t' := PruneTrack(t, active);
      if p in Removed(t, t') then p < active && At(t'.durable, p) == 0
      else At(t'.durable, p) == At(t.durable, p) && At(t'.used, p) == At(t.used, p)
  {
    PruneEffect(t, active, p);
  }

  /** What a granting section does to a period of the request's own rule. */
  lemma GrantedOwn(m: Memory, req: Request, slot: Slot)
    requires slot.0 == req.ruleId
    ensures var m' := AfterGrant(m, req, true);
      if slot in Pruned(m, req) then slot.2 < req.Period(slot.1) && Durable(m', slot) == 0
      else
        && Durable(m', slot) == (if Raising(m, req, slot)
                                 then RaisedTo(Used(m, slot), Durable(m, slot), req.quota.Limit(slot.1), Granting(m, req), Chunk(req))
                                 else Durable(m, slot))
        && (Raising(m, req, slot) ==> Used(m', slot) == Used(m, slot) + Granting(m, req))
  {
    hide Granting, PruneTrack, ChargeTrack, Removed, Pruned, GrantedUsage, RaisesFlush, RaisedTo;
    var t := UsageOf(m, slot.0).Of(slot.1);
    var active, limit := req.Period(slot.1), req.quota.Limit(slot.1);
    GrantingNonNegative(m, req);
    UsageAfterGrant(m, req);
    GrantedTrack(m, req, slot.1);
    PrunedSlots(m, req, slot);
    PrunedWatermark(t, active, slot.2);
    ChargedWatermark(PruneTrack(t, active), active, limit, Granting(m, req), Chunk(req), slot.2);
    ChargeEffect(PruneTrack(t, active), active, limit, Granting(m, req), Chunk(req), slot.2);
  }

  /** What a granting section does to the watermark of one period. */
  lemma GrantedWatermark(s: State, s': State, req: Request, slot: Slot)
    requires GrantFrame(s, s', req) && SlotOk(s, slot) && RequestClockOk(s, req)
    requires slot in s.dropped ==> Durable(s.mem, slot) == 0
    ensures slot in s'.dropped ==> Durable(s'.mem, slot) == 0 && !Raising(s.mem, req, slot)
    ensures slot !in s'.dropped && !Raising(s.mem, req, slot) ==> slot !in s.dropped && Durable(s'.mem, slot) == Durable(s.mem, slot)
    ensures Raising(s.mem, req, slot) ==>
      && slot !in s'.dropped && slot !in s.dropped
      && Used(s'.mem, slot) == Used(s.mem, slot) + Granting(s.mem, req)
      && Durable(s'.mem, slot) == RaisedTo(Used(s.mem, slot), Durable(s.mem, slot), req.quota.Limit(slot.1), Granting(s.mem, req), Chunk(req))
  {
    hide Granting, GrantedUsage, RaisesFlush, RaisedTo, Outstanding, Balanced, Pruned;
    PrunedSlots(s.mem, req, slot);
    if slot.0 == req.ruleId { GrantedOwn(s.mem, req, slot); }
  }

  /** A raise of a steady request adds a whole chunk or reaches the limit, and never more than a chunk. */
  lemma RaiseIsAChunk(m: Memory, req: Request, w: Watch)
    requires WatchOk(w) && MemoryOk(m) && Steady(req, w) && Raising(m, req, w.slot)
    ensures var d, d' := Durable(m, w.slot), RaisedTo(Used(m, w.slot), Durable(m, w.slot), w.limit, Granting(m, req), w.chunk);
      && d < w.limit && d < d' <= d + w.chunk && (d' == d + w.chunk || d' == w.limit)
      && Granting(m, req) <= w.chunk
  {
    hide Granting, Used, Durable, Wrap64;
    UsedWithinDurable(m, w.slot);
    RaiseFits(m, req, w.slot);
    NoWrap(Durable(m, w.slot) + w.chunk);
  }

  lemma NoWrap(x: int)
    requires 0 <= x <= MAX_INT64
    ensures Wrap64(x) == x
  {
  }

  lemma RaiseFits(m: Memory, req: Request, slot: Slot)
    requires Raising(m, req, slot)
    ensures Granting(m, req) <= req.requested && Used(m, slot) + Granting(m, req) <= req.quota.Limit(slot.1)
  {
    hide PruneTrack, Removed, Allowed;
    AllowedFits(PrunedUsage(m, req), req);
    PrunedWatermark(UsageOf(m, slot.0).Of(slot.1), slot.2, slot.2);
  }

  /** What a granting section leaves of the goroutines' saves and of the store. */
  lemma GrantKeepsSaves(s: State, tid: Tid, req: Request, w: Watch)
    requires forall t :: t in s.threads ==> PhaseSteady(s.threads[t], w)
    requires tid in s.threads ==> s.threads[tid].AtGrant?
    ensures var s' := DoGrant(s, tid, req);
      && s'.store == s.store
      && (forall t :: t in s'.threads ==> PhaseSteady(s'.threads[t], w))
      && (forall t :: t in s'.threads && s'.threads[t].Saving? ==> t in s.threads && s'.threads[t] == s.threads[t])
  {
    hide AfterGrant, RaisesFlush;
  }

  /** Moving a watermark by a chunk, or to the limit, keeps it apart from what was saved. */
  lemma StaysLayered(s: State, s': State, w: Watch)
    requires WatchOk(w) && Layered(s, w) && w.slot !in s.dropped && w.slot !in s'.dropped && s'.store == s.store
    requires forall t :: t in s'.threads && s'.threads[t].Saving? ==> t in s.threads && s'.threads[t] == s.threads[t]
    requires var d, d' := Durable(s.mem, w.slot), Durable(s'.mem, w.slot);
      d' == d || (d < w.limit && d < d' <= d + w.chunk && (d' == d + w.chunk || d' == w.limit))
    ensures Layered(s', w)
    ensures Near(s, w) && (Durable(s'.mem, w.slot) != Durable(s.mem, w.slot) ==> Saved(s, w.slot)) ==> Near(s', w)
  {
    hide Durable, Mark;
  }

  /** One granting section: watermarks stay a chunk apart; a raise over a saved
      mark stays near it, a raise over an unsaved one loses more than a chunk. */
  lemma GrantLoss(s: State, tid: Tid, req: Request, w: Watch)
    requires WatchOk(w) && LossInv(s, w) && Steady(req, w) && RequestClockOk(s, req)
    requires tid in s.threads ==> s.threads[tid].AtGrant?
    ensures var s' := DoGrant(s, tid, req);
      && LossInv(s', w)
      && (Near(s, w) && (Raising(s.mem, req, w.slot) ==> Saved(s, w.slot)) ==> Near(s', w))
      && (Raising(s.mem, req, w.slot) && !Saved(s, w.slot) ==> Loss(s', w.slot) > w.chunk)
  {
    hide DoGrant, AfterGrant, Raising, RaisedTo, Durable, Used, Mark, GrantFrame, RequestClockOk, PhaseSteady, SlotOk, FlushInv, ContentOk, Loss;
    var s' := DoGrant(s, tid, req);
    GrantAccounts(s, tid, req);
    GrantHasFrame(s, tid, req);
    GrantKeepsSaves(s, tid, req, w);
    assert SlotOk(s, w.slot);
    GrantedWatermark(s, s', req, w.slot);
    if Raising(s.mem, req, w.slot) {
      RaisingIsSteady(s, req, w);
      StaysLayered(s, s', w);
      LossIs(s', w.slot);
      UnsavedIsFar(s, req, w);
    } else if w.slot !in s'.dropped {
      StaysLayered(s, s', w);
    }
  }

  lemma RaisingIsSteady(s: State, req: Request, w: Watch)
    requires WatchOk(w) && FlushInv(s) && Steady(req, w) && Raising(s.mem, req, w.slot)
    ensures req.quota.Limit(w.slot.1) == w.limit && Chunk(req) == w.chunk
    ensures var d, d' := Durable(s.mem, w.slot), RaisedTo(Used(s.mem, w.slot), Durable(s.mem, w.slot), w.limit, Granting(s.mem, req), w.chunk);
      d < w.limit && d < d' <= d + w.chunk && (d' == d + w.chunk || d' == w.limit)
  {
    RaiseIsAChunk(s.mem, req, w);
  }

  /** A watermark that is raised while unsaved is already a chunk above the store. */
  lemma UnsavedIsFar(s: State, req: Request, w: Watch)
    requires WatchOk(w) && FlushInv(s) && Layered(s, w) && Steady(req, w) && Raising(s.mem, req, w.slot) && w.slot !in s.dropped
    ensures !Saved(s, w.slot) ==> Used(s.mem, w.slot) + Granting(s.mem, req) > Mark(s.store.content, w.slot) + w.chunk
  {
    RaiseIsAChunk(s.mem, req, w);
  }

  /** A raise leaves at most one chunk to lose if and only if it found the watermark saved. */
  lemma RaiseLosesAChunkIff(s: State, tid: Tid, req: Request, w: Watch)
    requires WatchOk(w) && LossInv(s, w) && Steady(req, w) && RequestClockOk(s, req) && Raising(s.mem, req, w.slot)
    requires tid in s.threads ==> s.threads[tid].AtGrant?
    ensures Loss(DoGrant(s, tid, req), w.slot) <= w.chunk <==> Saved(s, w.slot)
  {
    hide DoGrant, AfterGrant, Raising, RaisedTo, Durable, Used, Mark, GrantFrame, RequestClockOk, SlotOk, FlushInv, ContentOk, Loss;
    assert SlotOk(s, w.slot);
    GrantLoss(s, tid, req, w);
    GrantHasFrame(s, tid, req);
    GrantedWatermark(s, DoGrant(s, tid, req), req, w.slot);
    RaiseWithinChunk(s, req, w);
    LossIs(DoGrant(s, tid, req), w.slot);
    GrantKeepsSaves(s, tid, req, w);
  }

  lemma RaiseWithinChunk(s: State, req: Request, w: Watch)
    requires WatchOk(w) && FlushInv(s) && Steady(req, w) && Raising(s.mem, req, w.slot)
    ensures Used(s.mem, w.slot) + Granting(s.mem, req) <= Durable(s.mem, w.slot) + w.chunk
  {
    UsedWithinDurable(s.mem, w.slot);
    RaiseIsAChunk(s.mem, req, w);
  }

  // ---------- The other steps ----------

  predicate Other(step: Step) { !step.Reserve? && !step.GrantAfterFlush? && !ExactFailed(step) }

  lemma RoundTopLoss(s: State, tid: Tid, w: Watch)
    requires WatchOk(w) && LossInv(s, w) && Enabled(s, RoundTop(tid))
    ensures LossInv(Do(s, RoundTop(tid)), w) && (Near(s, w) ==> Near(Do(s, RoundTop(tid)), w))
  {
    hide AccountInv, DoRoundTop;
    StepKeepsAccounts(s, RoundTop(tid));
    RoundTopSaves(s, tid, w);
    SnapshotMarks(s.mem, w.slot);
  }

  lemma SnapshotMarks(m: Memory, slot: Slot)
    ensures Mark(DurableContent(m), slot) == Durable(m, slot)
  {
    if slot.0 in m.states { assert DurableContent(m)[slot.0].Of(slot.1) == m.states[slot.0].Of(slot.1).durable; }
  }

  /** A round's snapshot holds the whole watermark. */
  lemma RoundTopSaves(s: State, tid: Tid, w: Watch)
    requires Enabled(s, RoundTop(tid)) && forall t :: t in s.threads ==> PhaseSteady(s.threads[t], w)
    ensures var s' := DoRoundTop(s, tid);
      && s'.store == s.store && s'.dropped == s.dropped && s'.mem.states == s.mem.states
      && (forall t :: t in s'.threads ==> PhaseSteady(s'.threads[t], w))
      && (forall t :: t in s'.threads && s'.threads[t].Saving? ==>
            (t in s.threads && s'.threads[t] == s.threads[t]) || s'.threads[t].snapshot.content == DurableContent(s.mem))
  {
    assert PhaseSteady(s.threads[tid], w);
  }

  lemma SaveLoss(s: State, step: Step, w: Watch)
    requires WatchOk(w) && LossInv(s, w) && Enabled(s, step) && (step.SaveOk? || step.SaveFail?)
    ensures LossInv(Do(s, step), w) && (Near(s, w) ==> Near(Do(s, step), w))
  {
    hide AccountInv, Durable, Mark;
    StepKeepsAccounts(s, step);
    AccountsFlush(s);
    OnlySaver(s, step, w.slot);
    assert PhaseSteady(s.threads[step.tid], w);
  }

  lemma AccountsFlush(s: State)
    requires AccountInv(s)
    ensures FlushInv(s)
  {
  }

  lemma OnlySaver(s: State, step: Step, slot: Slot)
    requires FlushInv(s) && Enabled(s, step) && (step.SaveOk? || step.SaveFail?)
    ensures forall t :: t in Do(s, step).threads ==> !Do(s, step).threads[t].Saving?
    ensures Do(s, step).store == s.store || Do(s, step).store == s.threads[step.tid].snapshot
    ensures Do(s, step).dropped == s.dropped && Durable(Do(s, step).mem, slot) == Durable(s.mem, slot)
  {
    assert Flushes(s.threads[step.tid]);
  }

  lemma FinishLoss(s: State, i: nat, written: int, w: Watch)
    requires WatchOk(w) && LossInv(s, w) && Enabled(s, FinishReservation(i, written))
    ensures LossInv(Do(s, FinishReservation(i, written)), w) && (Near(s, w) ==> Near(Do(s, FinishReservation(i, written)), w))
  {
    hide AccountInv, Durable, Mark, Finish;
    StepKeepsAccounts(s, FinishReservation(i, written));
    FinishKeepsMark(s.mem, s.entries[i].r, written, w.slot);
  }

  lemma FinishKeepsMark(m: Memory, r: Reservation, written: int, slot: Slot)
    ensures Durable(Finish(m, r, written), slot) == Durable(m, slot)
  {
    FinishShape(m, r, written);
  }

  /** An exact save that reached the store: it holds the usage, which is now the watermark. */
  lemma ExactLoss(s: State, ok: bool, landed: bool, w: Watch)
    requires WatchOk(w) && LossInv(s, w) && Enabled(s, SaveExact(ok, landed)) && Disciplined(s, SaveExact(ok, landed)) && (ok || landed)
    ensures LossInv(DoSaveExact(s, ok, landed), w) && Near(DoSaveExact(s, ok, landed), w)
  {
    hide AccountInv, Exact, DurableContent;
    StepKeepsAccounts(s, SaveExact(ok, landed));
    NobodySaves(s);
    SnapshotMarks(Exact(s.mem), w.slot);
    ExactMark(s.mem, w.slot);
    if w.slot in s.dropped { DroppedUnused(s, w.slot); }
  }

  lemma NobodySaves(s: State)
    requires AccountInv(s) && !s.mem.flushing
    ensures forall t :: t in s.threads ==> !s.threads[t].Saving?
  {
  }

  lemma ExactMark(m: Memory, slot: Slot)
    ensures Durable(Exact(m), slot) == Used(m, slot)
  {
    if slot.0 in m.states { assert Exact(m).states[slot.0].Of(slot.1).durable == m.states[slot.0].Of(slot.1).used; }
  }

  lemma DroppedUnused(s: State, slot: Slot)
    requires AccountInv(s) && slot in s.dropped
    ensures Used(s.mem, slot) == 0
  {
    assert SlotOk(s, slot);
  }

  lemma CrashLoss(s: State, w: Watch)
    requires WatchOk(w) && AccountInv(s)
    ensures LossInv(DoCrash(s), w) && Near(DoCrash(s), w)
  {
    StepKeepsAccounts(s, Crash);
  }

  /** One step that is no failed exact save: the loss stays within a chunk if
      no unsaved watermark is raised, and exceeds it if one is. */
  lemma StepLoss(s: State, step: Step, w: Watch)
    requires WatchOk(w) && LossInv(s, w) && Near(s, w)
    requires Enabled(s, step) && Disciplined(s, step) && (step.Reserve? ==> Steady(step.req, w)) && !ExactFailed(step)
    ensures LossInv(Do(s, step), w)
    ensures (Raises(s, step, w.slot) ==> Saved(s, w.slot)) ==> Near(Do(s, step), w)
    ensures Raises(s, step, w.slot) && !Saved(s, w.slot) ==> Loss(Do(s, step), w.slot) > w.chunk
  {
    hide AccountInv, Layered, Near, Saved, Raising, Loss, RequestClockOk, DoGrant, DoRoundTop, DoSaveExact, DoCrash;
    match step
    case Reserve(tid, req, now) => ReserveLoss(s, tid, req, now, w);
    case GrantAfterFlush(tid, day, month) =>
      assert PhaseSteady(s.threads[tid], w);
      GrantLoss(s, tid, s.threads[tid].req.(day := day, month := month), w);
    case RoundTop(tid) => RoundTopLoss(s, tid, w);
    case FinishReservation(i, written) => FinishLoss(s, i, written, w);
    case SaveExact(ok, landed) => ExactLoss(s, ok, landed, w);
    case Crash => CrashLoss(s, w);
    case _ => SaveLoss(s, step, w);
  }

  lemma ReserveLoss(s: State, tid: Tid, req: Request, now: Time, w: Watch)
    requires WatchOk(w) && LossInv(s, w) && Near(s, w)
    requires Enabled(s, Reserve(tid, req, now)) && RequestClockOk(s, req) && Steady(req, w)
    ensures var s' := DoReserve(s, tid, req, now);
      && LossInv(s', w)
      && ((Raises(s, Reserve(tid, req, now), w.slot) ==> Saved(s, w.slot)) ==> Near(s', w))
      && (Raises(s, Reserve(tid, req, now), w.slot) && !Saved(s, w.slot) ==> Loss(s', w.slot) > w.chunk)
  {
    hide AccountInv, RequestClockOk, Raising, Loss, DoGrant, Mark;
    if EnterGate(s.mem, now).1.Pass? {
      GrantLoss(s, tid, req, w);
    } else {
      ReserveAccounts(s, tid, req, now);
    }
  }

  /** A failed exact save forgets nothing more, and the process that ends on it restarts on what the store holds. */
  lemma FailedExactLoss(s: State, step: Step, w: Watch)
    requires WatchOk(w) && LossInv(s, w) && Enabled(s, step) && Disciplined(s, step) && ExactFailed(step)
    ensures var s' := Do(s, step);
      Loss(s', w.slot) == Loss(s, w.slot) && LossInv(DoCrash(s'), w) && Near(DoCrash(s'), w)
  {
    hide AccountInv, SlotOk, Layered, Near;
    StepKeepsAccounts(s, step);
    CrashLoss(Do(s, step), w);
    ExactForgetsNothing(s, step, w.slot);
  }

  lemma ExactForgetsNothing(s: State, step: Step, slot: Slot)
    requires Enabled(s, step) && ExactFailed(step)
    ensures Loss(Do(s, step), slot) == Loss(s, slot)
  {
    if slot.0 in s.mem.states {
      assert Do(s, step).mem.states[slot.0].Of(slot.1).used == s.mem.states[slot.0].Of(slot.1).used;
    }
  }

  // ---------- Whole runs ----------

  lemma {:induction false} LossIff(s: State, steps: seq<Step>, w: Watch)
    requires WatchOk(w) && LossInv(s, w) && Near(s, w) && Executable(s, steps) && Regular(s, steps, w)
    ensures LosesAtMostAChunk(s, steps, w) <==> SavedBeforeRaised(s, steps, w.slot)
    decreases |steps|
  {
    hide LossInv, Near, Enabled, Disciplined, Do, Raises, Saved, Loss, Steady, WatchOk;
    NearLosesLittle(s, w);
    if steps != [] {
      var s', rest := Do(s, steps[0]), steps[1..];
      if ExactFailed(steps[0]) {
        FailedExactLoss(s, steps[0], w);
        ExactRaisesNothing(s, steps[0], w.slot);
        if rest != [] {
          CrashIs(s', w.slot);
          LossIff(DoCrash(s'), rest[1..], w);
        }
      } else {
        StepLoss(s, steps[0], w);
        if Raises(s, steps[0], w.slot) ==> Saved(s, w.slot) {
          LossIff(s', rest, w);
        }
      }
    }
  }

  lemma ExactRaisesNothing(s: State, step: Step, slot: Slot)
    requires step.SaveExact? && Enabled(s, step)
    ensures !Raises(s, step, slot)
  {
  }

  lemma CrashIs(s: State, slot: Slot)
    ensures Enabled(s, Crash) && Do(s, Crash) == DoCrash(s) && !Raises(s, Crash, slot)
  {
  }

  lemma StartLoss(content: Content, w: Watch)
    requires ContentOk(content) && WatchOk(w)
    ensures LossInv(Start(content), w) && Near(Start(content), w)
  {
    StartOk(content);
    var s := Start(content);
    assert SnapshotOk(s.store);
    forall slot ensures SlotOk(s, slot) { ReloadCovers(s.store, slot); }
    ReloadCovers(s.store, w.slot);
  }

  /** The promise of one durable chunk, and exactly when it is kept: a crash at
      any point of a run forgets at most one chunk of a period's usage if and
      only if no grant of the run raises that period's watermark before its last
      raise has reached the store. */
  lemma CrashLosesAtMostAChunkIff(content: Content, steps: seq<Step>, w: Watch)
    requires ContentOk(content) && WatchOk(w) && Executable(Start(content), steps) && Regular(Start(content), steps, w)
    ensures LosesAtMostAChunk(Start(content), steps, w) <==> SavedBeforeRaised(Start(content), steps, w.slot)
  {
    StartLoss(content, w);
    LossIff(Start(content), steps, w);
  }

  // ---------- Two chunks can be lost ----------

  const TWO_CHUNKS: Watch := Watch(("r", Daily, 0), 100, 10)

  function TenBytes(): Request { Request("r", Quota(100, 0), 10, false, 10, 0, 0) }

  const NOTHING: Content := map[]

  function FirstGrant(): Step { Reserve(0, TenBytes(), 0) }

  function SaveBegins(): Step { RoundTop(0) }

  function SecondGrant(): Step { Reserve(1, TenBytes(), 0) }

  lemma StepsAreSteady()
    ensures !ExactFailed(FirstGrant()) && !ExactFailed(SaveBegins()) && !ExactFailed(SecondGrant())
    ensures FirstGrant() == Reserve(0, TenBytes(), 0) && SaveBegins() == RoundTop(0) && SecondGrant() == Reserve(1, TenBytes(), 0)
    ensures Steady(TenBytes(), TWO_CHUNKS)
  {
  }

  /** A ledger on which the sample rule has used `used` bytes, the first of them promised to the store. */
  predicate SampleState(s: State, used: int)
  {
    && !s.mem.flushErr && s.store.content == map[] && s.newest.Keys <= {("r", Daily), ("r", Monthly)}
    && (forall k :: k in s.newest ==> s.newest[k] == 0)
    && UsageOf(s.mem, "r").monthly == Track(map[], map[])
    && UsageOf(s.mem, "r").daily == (if used == 0 then Track(map[], map[]) else Track(map[0 := used], map[0 := used]))
  }

  lemma TenBytesGranted(m: Memory, used: int)
    requires used in {0, 10} && UsageOf(m, "r").monthly == Track(map[], map[])
    requires UsageOf(m, "r").daily == if used == 0 then Track(map[], map[]) else Track(map[0 := used], map[0 := used])
    ensures Granting(m, TenBytes()) == 10 && Raising(m, TenBytes(), TWO_CHUNKS.slot)
    ensures UsageOf(AfterGrant(m, TenBytes(), true), "r").monthly == Track(map[], map[])
    ensures UsageOf(AfterGrant(m, TenBytes(), true), "r").daily == Track(map[0 := used + 10], map[0 := used + 10])
  {
    hide AfterGrant, Wrap64;
    var t := UsageOf(m, "r").daily;
    assert |t.used| <= 1 by { if used == 10 { assert t.used == map[0 := 10]; } }
    assert PruneTrack(t, 0) == t && PruneTrack(UsageOf(m, "r").monthly, 0) == UsageOf(m, "r").monthly;
    UsageAfterGrant(m, TenBytes());
    GrantedTrack(m, TenBytes(), Daily);
    GrantedTrack(m, TenBytes(), Monthly);
    NoWrap(used + 10);
  }

  lemma SampleGrant(s: State, tid: Tid, used: int)
    requires SampleState(s, used) && used in {0, 10} && tid !in s.threads
    ensures var step := Reserve(tid, TenBytes(), 0);
      && Enabled(s, step) && Do(s, step) == DoGrant(s, tid, TenBytes()) && Disciplined(s, step)
      && SampleState(Do(s, step), used + 10) && Raises(s, step, TWO_CHUNKS.slot)
      && Do(s, step).mem.flushPending
      && (!s.mem.flushing ==> Do(s, step).threads == s.threads[tid := AtFlushTop(Stop)])
  {
    hide AfterGrant, UsageOf, Granting, Pruned, Raising;
    TenBytesGranted(s.mem, used);
    GrantRaisesFlush(s.mem);
  }

  lemma GrantRaisesFlush(m: Memory)
    requires Raising(m, TenBytes(), TWO_CHUNKS.slot)
    ensures RaisesFlush(m, TenBytes(), true)
    ensures var m' := AfterGrant(m, TenBytes(), true); m'.flushPending && m'.flushing && m'.flushErr == m.flushErr
  {
  }

  lemma SampleRound(s: State)
    requires SampleState(s, 10) && s.threads == map[0 := AtFlushTop(Stop)] && s.mem.flushPending
    ensures Enabled(s, RoundTop(0)) && Disciplined(s, RoundTop(0))
    ensures SampleState(Do(s, RoundTop(0)), 10) && 1 !in Do(s, RoundTop(0)).threads
  {
  }

  lemma SampleLoss(s: State)
    requires SampleState(s, 20)
    ensures BothForgotten(s)
  {
  }

  lemma SampleStart()
    ensures SampleState(Start(NOTHING), 0) && Start(NOTHING).threads == map[] && !Start(NOTHING).mem.flushing
    ensures WatchOk(TWO_CHUNKS) && ContentOk(NOTHING)
  {
  }

  lemma FirstStep(s: State, a: Step, rest: seq<Step>, w: Watch)
    requires Enabled(s, a) && Disciplined(s, a) && !ExactFailed(a) && (a.Reserve? ==> Steady(a.req, w))
    requires Executable(Do(s, a), rest) && Regular(Do(s, a), rest, w)
    ensures var steps := [a] + rest;
      Executable(s, steps) && Regular(s, steps, w) && Run(s, steps) == Run(Do(s, a), rest)
  {
    hide Enabled, Do, Disciplined, ExactFailed, Steady;
    assert ([a] + rest)[1..] == rest;
  }

  lemma NoSteps(s: State, w: Watch)
    ensures Executable(s, []) && Regular(s, [], w) && Run(s, []) == s
  {
  }

  lemma ThreeSteps(s: State, a: Step, b: Step, c: Step, w: Watch)
    requires Enabled(s, a) && Disciplined(s, a) && Enabled(Do(s, a), b) && Disciplined(Do(s, a), b)
    requires Enabled(Do(Do(s, a), b), c) && Disciplined(Do(Do(s, a), b), c)
    requires !ExactFailed(a) && (a.Reserve? ==> Steady(a.req, w)) && !ExactFailed(b) && (b.Reserve? ==> Steady(b.req, w))
    requires !ExactFailed(c) && (c.Reserve? ==> Steady(c.req, w))
    ensures Executable(s, [a, b, c]) && Regular(s, [a, b, c], w) && Run(s, [a, b, c]) == Do(Do(Do(s, a), b), c)
  {
    hide *;
    NoSteps(Do(Do(Do(s, a), b), c), w);
    FirstStep(Do(Do(s, a), b), c, [], w);
    FirstStep(Do(s, a), b, [c] + [], w);
    FirstStep(s, a, [b] + ([c] + []), w);
    assert [a] + ([b] + ([c] + [])) == [a, b, c];
  }

  /** Two chunks are in use and a crash would leave none. */
  predicate BothForgotten(s: State)
  {
    Used(s.mem, TWO_CHUNKS.slot) == 2 * TWO_CHUNKS.chunk && Used(DoCrash(s).mem, TWO_CHUNKS.slot) == 0
  }

  /** The promise can be broken: a chunk is granted, its save begins, and before
      it ends another chunk is granted; a crash then forgets both. */
  lemma TwoChunksCanBeLost()
    ensures WatchOk(TWO_CHUNKS) && ContentOk(NOTHING)
    ensures var steps := [FirstGrant(), SaveBegins(), SecondGrant()];
      && Executable(Start(NOTHING), steps) && Regular(Start(NOTHING), steps, TWO_CHUNKS)
      && BothForgotten(Run(Start(NOTHING), steps))
  {
    hide *;
    var s := Start(NOTHING);
    SampleStart();
    StepsAreSteady();
    SampleGrant(s, 0, 0);
    var s1 := Do(s, FirstGrant());
    SampleRound(s1);
    var s2 := Do(s1, SaveBegins());
    SampleGrant(s2, 1, 10);
    ThreeSteps(s, FirstGrant(), SaveBegins(), SecondGrant(), TWO_CHUNKS);
    SampleLoss(Do(s2, SecondGrant()));
  }
}

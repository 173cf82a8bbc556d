/** Accounting over whole runs: usage is the loaded baseline plus bytes written
    by finished reservations plus bytes still outstanding, and stays within the
    limit, in every interleaving. */
module QuotaAccounting {
  import opened Wrappers
  import opened QuotaModel
  import opened QuotaMachine
  import opened QuotaDurability

  // ---------- Sums of charges ----------

  lemma {:induction false} ChargedNonNegative(entries: seq<Entry>, slot: Slot)
    requires forall i :: 0 <= i < |entries| ==> entries[i].Charge() >= 0
    ensures Charged(entries, slot) >= 0
  {
    if entries != [] { ChargedNonNegative(entries[..|entries| - 1], slot); }
  }

  lemma ChargedAppend(entries: seq<Entry>, e: Entry, slot: Slot)
    ensures Charged(entries + [e], slot) == Charged(entries, slot) + EntryCharge(e, slot)
  {
    assert (entries + [e])[..|entries|] == entries;
  }

  lemma {:induction false} ChargedUpdate(entries: seq<Entry>, i: nat, e: Entry, slot: Slot)
    requires i < |entries|
    ensures Charged(entries[i := e], slot) == Charged(entries, slot) - EntryCharge(entries[i], slot) + EntryCharge(e, slot)
  {
    var last := |entries| - 1;
    if i == last {
      assert entries[i := e][..last] == entries[..last];
    } else {
      ChargedUpdate(entries[..last], i, e, slot);
      assert entries[i := e][..last] == entries[..last][i := e];
    }
  }

  lemma {:induction false} ChargedAtLeast(entries: seq<Entry>, i: nat, slot: Slot)
    requires i < |entries|
    requires forall j :: 0 <= j < |entries| ==> entries[j].Charge() >= 0
    ensures Charged(entries, slot) >= EntryCharge(entries[i], slot)
  {
    var last := |entries| - 1;
    if i == last {
      ChargedNonNegative(entries[..last], slot);
    } else {
      ChargedAtLeast(entries[..last], i, slot);
    }
  }

  // ---------- The invariant ----------

  predicate Outstanding(s: State, slot: Slot)
  {
    exists i :: 0 <= i < |s.entries| && !s.entries[i].finished && ChargesSlot(s.entries[i].r, slot)
  }

  /** A slot whose keys were pruned is far behind the clock, reads as zero, and
      has no durable key while a reservation on it is outstanding. */
  predicate DroppedOk(s: State, slot: Slot)
  {
    && (slot.0, slot.1) in s.newest
    && slot.2 < s.newest[(slot.0, slot.1)] - RETAINED_PAST_PERIODS
    && Used(s.mem, slot) == 0
    && (Outstanding(s, slot) ==> !HasDurable(s.mem, slot))
  }

  predicate Balanced(s: State, slot: Slot)
  {
    Used(s.mem, slot) == Mark(s.base, slot) + Charged(s.entries, slot)
  }

  predicate SlotOk(s: State, slot: Slot)
  {
    if slot in s.dropped then DroppedOk(s, slot) else Balanced(s, slot)
  }

  ghost predicate AccountInv(s: State)
  {
    FlushInv(s) && ContentOk(s.base) && forall slot :: SlotOk(s, slot)
  }

  /** The clock is at most two periods behind the newest period it has shown this rule. */
  predicate ClockOk(s: State, ruleId: RuleId, kind: Kind, active: Period)
  {
    (ruleId, kind) in s.newest ==> active >= s.newest[(ruleId, kind)] - RETAINED_PAST_PERIODS
  }

  predicate RequestClockOk(s: State, req: Request)
  {
    ClockOk(s, req.ruleId, Daily, req.day) && ClockOk(s, req.ruleId, Monthly, req.month)
  }

  /** The clock keeps to its bound, and the exact save runs with no reservation outstanding. */
  predicate Disciplined(s: State, step: Step)
  {
    match step
    case Reserve(_, req, _) => RequestClockOk(s, req)
    case GrantAfterFlush(tid, day, month) =>
      tid in s.threads && s.threads[tid].AtGrant? ==> RequestClockOk(s, s.threads[tid].req.(day := day, month := month))
    case SaveExact(_, _) => forall i :: 0 <= i < |s.entries| ==> s.entries[i].finished
    case _ => true
  }

  lemma ChargesOk(s: State)
    requires EntriesOk(s)
    ensures forall i :: 0 <= i < |s.entries| ==> s.entries[i].Charge() >= 0
  {
  }

  // ---------- Granting ----------

  lemma PruneEffect(t: Track, active: Period, p: Period)
    ensures var t' := PruneTrack(t, active);
      if p in Removed(t, t') then p < active - RETAINED_PAST_PERIODS && p !in t'.used && p !in t'.durable
      else At(t'.used, p) == At(t.used, p) && (p in t'.durable <==> p in t.durable)
  {
    var t' := PruneTrack(t, active);
    if p !in Removed(t, t') && |t.used| > RETAINED_PAST_PERIODS + 1 {
      assert p in t.used || p in t.durable ==> p in t'.used || p in t'.durable;
    }
  }

  lemma GrantedTrack(m: Memory, req: Request, kind: Kind)
    ensures var t := PruneTrack(UsageOf(m, req.ruleId).Of(kind), req.Period(kind));
      GrantedUsage(m, req).Of(kind) ==
        (if Granting(m, req) > 0 then ChargeTrack(t, req.Period(kind), req.quota.Limit(kind), Granting(m, req), Chunk(req)) else t)
  {
  }

  lemma ChargeEffect(t: Track, active: Period, limit: int, allowed: int, chunk: int, p: Period)
    ensures var t' := ChargeTrack(t, active, limit, allowed, chunk);
      && At(t'.used, p) == At(t.used, p) + (if p == active && limit > 0 then allowed else 0)
      && (p != active ==> (p in t'.durable <==> p in t.durable))
  {
  }

  /** What one granting section does to one period of one budget. */
  lemma TrackEffect(t: Track, active: Period, limit: int, allowed: int, chunk: int, p: Period)
    ensures var pruned := PruneTrack(t, active);
      var t' := if allowed > 0 then ChargeTrack(pruned, active, limit, allowed, chunk) else pruned;
      && (p in Removed(t, pruned) ==> p < active - RETAINED_PAST_PERIODS && At(t'.used, p) == 0 && p !in t'.durable)
      && (p !in Removed(t, pruned) && p != active ==> At(t'.used, p) == At(t.used, p) && (p in t'.durable <==> p in t.durable))
      && (p == active ==> At(t'.used, p) == At(t.used, p) + (if limit > 0 && allowed > 0 then allowed else 0))
  {
    hide PruneTrack, ChargeTrack, Removed;
    PruneEffect(t, active, p);
    ChargeEffect(PruneTrack(t, active), active, limit, allowed, chunk, p);
  }

  lemma NewCharge(m: Memory, entries: seq<Entry>, req: Request, slot: Slot)
    ensures Charged(entries + NewEntries(m, req), slot) == Charged(entries, slot) +
      (if slot.0 == req.ruleId && req.Period(slot.1) == slot.2 && req.quota.Limit(slot.1) > 0 then Granting(m, req) else 0)
  {
    if Granting(m, req) > 0 {
      ChargedAppend(entries, Entry(Reserved(req, Granting(m, req)), false, 0), slot);
    } else {
      assert entries + NewEntries(m, req) == entries;
    }
  }

  lemma PrunedSlots(m: Memory, req: Request, slot: Slot)
    ensures slot in Pruned(m, req) <==>
      (slot.0 == req.ruleId &&
       slot.2 in Removed(UsageOf(m, slot.0).Of(slot.1), PruneTrack(UsageOf(m, slot.0).Of(slot.1), req.Period(slot.1))))
  {
  }

  lemma NotMoreOutstanding(s: State, s': State, m: Memory, req: Request, slot: Slot)
    requires s'.entries == s.entries + NewEntries(m, req)
    requires slot.0 != req.ruleId || slot.2 != req.Period(slot.1)
    ensures Outstanding(s', slot) ==> Outstanding(s, slot)
  {
  }

  /** The parts of a granting section the accounting looks at. */
  predicate GrantFrame(s: State, s': State, req: Request)
  {
    && s'.mem == AfterGrant(s.mem, req, true) && s'.base == s.base
    && s'.entries == s.entries + NewEntries(s.mem, req)
    && s'.dropped == s.dropped + Pruned(s.mem, req)
    && s'.newest == s.newest[(req.ruleId, Daily) := Newest(s, req.ruleId, Daily, req.day)]
                            [(req.ruleId, Monthly) := Newest(s, req.ruleId, Monthly, req.month)]
  }

  lemma GrantHasFrame(s: State, tid: Tid, req: Request)
    ensures GrantFrame(s, DoGrant(s, tid, req), req)
  {
  }

  lemma NewestBound(s: State, req: Request, kind: Kind)
    requires RequestClockOk(s, req)
    ensures Newest(s, req.ruleId, kind, req.Period(kind)) >= req.Period(kind) >= Newest(s, req.ruleId, kind, req.Period(kind)) - RETAINED_PAST_PERIODS
    ensures (req.ruleId, kind) in s.newest ==> Newest(s, req.ruleId, kind, req.Period(kind)) >= s.newest[(req.ruleId, kind)]
  {
  }

  lemma GrantingNonNegative(m: Memory, req: Request)
    ensures Granting(m, req) >= 0
  {
  }

  lemma UsageAfterGrant(m: Memory, req: Request)
    ensures UsageOf(AfterGrant(m, req, true), req.ruleId) == GrantedUsage(m, req)
  {
  }

  lemma GrantSame(s: State, s': State, req: Request, slot: Slot)
    requires slot.0 == req.ruleId && SlotOk(s, slot) && RequestClockOk(s, req)
    requires GrantFrame(s, s', req)
    ensures SlotOk(s', slot)
  {
    hide Granting, PruneTrack, ChargeTrack, Removed, Charged, Pruned, NewEntries, GrantedUsage, Outstanding, RaisesFlush, Newest;
    NewestBound(s, req, slot.1);
    GrantingNonNegative(s.mem, req);
    UsageAfterGrant(s.mem, req);
    var allowed := Granting(s.mem, req);
    var t := UsageOf(s.mem, slot.0).Of(slot.1);
    var active := req.Period(slot.1);
    GrantedTrack(s.mem, req, slot.1);
    TrackEffect(t, active, req.quota.Limit(slot.1), allowed, Chunk(req), slot.2);
    PrunedSlots(s.mem, req, slot);
    NewCharge(s.mem, s.entries, req, slot);
    if slot.2 != active { NotMoreOutstanding(s, s', s.mem, req, slot); }
  }

  lemma GrantOther(s: State, s': State, req: Request, slot: Slot)
    requires slot.0 != req.ruleId && SlotOk(s, slot)
    requires GrantFrame(s, s', req)
    ensures SlotOk(s', slot)
  {
    PrunedSlots(s.mem, req, slot);
    NewCharge(s.mem, s.entries, req, slot);
    NotMoreOutstanding(s, s', s.mem, req, slot);
  }

  lemma GrantSlots(s: State, s': State, req: Request)
    requires (forall slot :: SlotOk(s, slot)) && RequestClockOk(s, req)
    requires GrantFrame(s, s', req)
    ensures forall slot :: SlotOk(s', slot)
  {
    forall slot ensures SlotOk(s', slot) {
      assert SlotOk(s, slot);
      if slot.0 == req.ruleId { GrantSame(s, s', req, slot); } else { GrantOther(s, s', req, slot); }
    }
  }

  lemma GrantAccounts(s: State, tid: Tid, req: Request)
    requires AccountInv(s) && RequestClockOk(s, req)
    requires tid in s.threads ==> s.threads[tid].AtGrant?
    ensures AccountInv(DoGrant(s, tid, req))
  {
    GrantStep(s, tid, req);
    GrantHasFrame(s, tid, req);
    GrantSlots(s, DoGrant(s, tid, req), req);
  }

  // ---------- Finishing ----------

  /** A refund gives back exactly the unwritten bytes when they are all still there. */
  lemma RefundEffect(s: State, i: nat, written: int, slot: Slot)
    requires i < |s.entries| && EntriesOk(s) && !s.entries[i].finished
    ensures var e := s.entries[i];
      var s' := Do(s, FinishReservation(i, written));
      var amount := e.r.bytes - Clamp(written, e.r.bytes);
      && HasDurable(s'.mem, slot) == HasDurable(s.mem, slot)
      && (!ChargesSlot(e.r, slot) ==> Used(s'.mem, slot) == Used(s.mem, slot))
      && (ChargesSlot(e.r, slot) && Used(s.mem, slot) >= amount ==> Used(s'.mem, slot) == Used(s.mem, slot) - amount)
      && (ChargesSlot(e.r, slot) && Used(s.mem, slot) == 0 ==> Used(s'.mem, slot) == 0)
  {
  }

  lemma FinishSlot(s: State, i: nat, written: int, slot: Slot)
    requires i < |s.entries| && !s.entries[i].finished && EntriesOk(s) && ContentOk(s.base) && SlotOk(s, slot)
    ensures SlotOk(Do(s, FinishReservation(i, written)), slot)
  {
    var e := s.entries[i];
    var s' := Do(s, FinishReservation(i, written));
    RefundEffect(s, i, written, slot);
    ChargedUpdate(s.entries, i, Entry(e.r, true, Clamp(written, e.r.bytes)), slot);
    ChargesOk(s);
    ChargedAtLeast(s.entries, i, slot);
    MarksNonNegative(s.base);
    if Outstanding(s', slot) {
      var j :| 0 <= j < |s'.entries| && !s'.entries[j].finished && ChargesSlot(s'.entries[j].r, slot);
      assert j != i && s'.entries[j] == s.entries[j];
    }
  }

  // ---------- Steps that charge nothing ----------

  lemma UnchangedSlots(s: State, s': State)
    requires forall slot :: SlotOk(s, slot)
    requires s'.mem.states == s.mem.states && s'.entries == s.entries && s'.base == s.base
    requires s'.newest == s.newest && s'.dropped == s.dropped
    ensures forall slot :: SlotOk(s', slot)
  {
    forall slot ensures SlotOk(s', slot) { assert SlotOk(s, slot); }
  }

  lemma ExactSlots(s: State, ok: bool, landed: bool)
    requires forall slot :: SlotOk(s, slot)
    requires forall i :: 0 <= i < |s.entries| ==> s.entries[i].finished
    ensures forall slot :: SlotOk(DoSaveExact(s, ok, landed), slot)
  {
    var s' := DoSaveExact(s, ok, landed);
    forall slot ensures SlotOk(s', slot) {
      assert SlotOk(s, slot);
      assert Used(s'.mem, slot) == Used(s.mem, slot) by {
        if slot.0 in s.mem.states {
          assert s'.mem.states[slot.0].Of(slot.1).used == s.mem.states[slot.0].Of(slot.1).used;
        }
      }
    }
  }

  lemma CrashSlots(s: State)
    requires SnapshotOk(s.store)
    ensures forall slot :: SlotOk(DoCrash(s), slot)
  {
    forall slot ensures SlotOk(DoCrash(s), slot) { ReloadCovers(s.store, slot); }
  }

  lemma FlushStepSlots(s: State, step: Step)
    requires forall slot :: SlotOk(s, slot)
    requires Enabled(s, step) && (step.RoundTop? || step.SaveOk? || step.SaveFail?)
    ensures Do(s, step).base == s.base
    ensures forall slot :: SlotOk(Do(s, step), slot)
  {
    UnchangedSlots(s, Do(s, step));
  }

  lemma ReserveAccounts(s: State, tid: Tid, req: Request, now: Time)
    requires AccountInv(s) && RequestClockOk(s, req) && tid !in s.threads
    ensures AccountInv(DoReserve(s, tid, req, now))
  {
    if EnterGate(s.mem, now).1.Pass? {
      GrantAccounts(s, tid, req);
    } else {
      ReserveStep(s, tid, req, now);
      UnchangedSlots(s, DoReserve(s, tid, req, now));
    }
  }

  lemma FinishAccounts(s: State, i: nat, written: int)
    requires AccountInv(s) && i < |s.entries| && !s.entries[i].finished
    ensures AccountInv(Do(s, FinishReservation(i, written)))
  {
    FinishStep(s, i, written);
    forall slot ensures SlotOk(Do(s, FinishReservation(i, written)), slot) {
      assert SlotOk(s, slot);
      FinishSlot(s, i, written, slot);
    }
  }

  /** Every disciplined step of every interleaving keeps the accounts. */
  lemma StepKeepsAccounts(s: State, step: Step)
    requires AccountInv(s) && Enabled(s, step) && Disciplined(s, step)
    ensures AccountInv(Do(s, step))
  {
    match step
    case Reserve(tid, req, now) => ReserveAccounts(s, tid, req, now);
    case GrantAfterFlush(tid, day, month) => GrantAccounts(s, tid, s.threads[tid].req.(day := day, month := month));
    case FinishReservation(i, written) => FinishAccounts(s, i, written);
    case SaveExact(ok, landed) => SaveExactStep(s, ok, landed); ExactSlots(s, ok, landed);
    case Crash => StepKeepsFlush(s, step); CrashSlots(s);
    case _ => StepKeepsFlush(s, step); FlushStepSlots(s, step);
  }
}

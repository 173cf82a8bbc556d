/** Safety over whole runs with fixed quotas, and exactly when a refund is clamped. */
module QuotaSafety {
  import opened Wrappers
  import opened QuotaModel
  import opened QuotaMachine
  import opened QuotaDurability
  import opened QuotaAccounting

  type Quotas = map<RuleId, Quota>

  predicate FixedRequest(req: Request, quotas: Quotas)
  {
    req.ruleId in quotas && req.quota == quotas[req.ruleId]
  }

  predicate FixedStep(step: Step, quotas: Quotas)
  {
    step.Reserve? ==> FixedRequest(step.req, quotas)
  }

  predicate PhaseFixed(p: Phase, quotas: Quotas)
  {
    match p
    case AtGrant(req) => FixedRequest(req, quotas)
    case AtFlushTop(next) => next.ThenGrant? ==> FixedRequest(next.req, quotas)
    case Saving(_, next) => next.ThenGrant? ==> FixedRequest(next.req, quotas)
  }

  predicate ThreadsFixed(s: State, quotas: Quotas)
  {
    forall t :: t in s.threads ==> PhaseFixed(s.threads[t], quotas)
  }

  /** Baseline plus written plus outstanding bytes stay within the limit (or the baseline, if that was above it). */
  predicate Within(s: State, quotas: Quotas, slot: Slot)
  {
    slot.0 in quotas && quotas[slot.0].Limit(slot.1) > 0 ==>
      Mark(s.base, slot) + Charged(s.entries, slot) <= Max(quotas[slot.0].Limit(slot.1), Mark(s.base, slot))
  }

  ghost predicate SafetyInv(s: State, quotas: Quotas)
  {
    AccountInv(s) && ThreadsFixed(s, quotas) && forall slot :: Within(s, quotas, slot)
  }

  lemma GrantWithin(s: State, s': State, req: Request, quotas: Quotas, slot: Slot)
    requires FixedRequest(req, quotas) && SlotOk(s, slot) && RequestClockOk(s, req) && Within(s, quotas, slot)
    requires GrantFrame(s, s', req)
    ensures Within(s', quotas, slot)
  {
    NewCharge(s.mem, s.entries, req, slot);
    if slot.0 == req.ruleId && req.Period(slot.1) == slot.2 && req.quota.Limit(slot.1) > 0 && Granting(s.mem, req) > 0 {
      PruneEffect(UsageOf(s.mem, slot.0).Of(slot.1), slot.2, slot.2);
      AllowedFits(PrunedUsage(s.mem, req), req);
      assert At(PrunedUsage(s.mem, req).Of(slot.1).used, slot.2) == Used(s.mem, slot);
      assert slot !in s.dropped && Balanced(s, slot);
      assert Granting(s.mem, req) <= req.quota.Limit(slot.1) - Used(s.mem, slot);
    }
  }

  lemma GrantSafe(s: State, tid: Tid, req: Request, quotas: Quotas)
    requires SafetyInv(s, quotas) && FixedRequest(req, quotas) && RequestClockOk(s, req)
    requires tid in s.threads ==> s.threads[tid].AtGrant?
    ensures SafetyInv(DoGrant(s, tid, req), quotas)
  {
    GrantAccounts(s, tid, req);
    GrantHasFrame(s, tid, req);
    forall slot ensures Within(DoGrant(s, tid, req), quotas, slot) {
      assert SlotOk(s, slot) && Within(s, quotas, slot);
      GrantWithin(s, DoGrant(s, tid, req), req, quotas, slot);
    }
  }

  lemma SameCharges(s: State, s': State, quotas: Quotas)
    requires forall slot :: Within(s, quotas, slot)
    requires s'.entries == s.entries && s'.base == s.base
    ensures forall slot :: Within(s', quotas, slot)
  {
    forall slot ensures Within(s', quotas, slot) { assert Within(s, quotas, slot); }
  }

  lemma FinishSafe(s: State, i: nat, written: int, quotas: Quotas)
    requires SafetyInv(s, quotas) && i < |s.entries| && !s.entries[i].finished
    ensures SafetyInv(Do(s, FinishReservation(i, written)), quotas)
  {
    FinishAccounts(s, i, written);
    var e := s.entries[i];
    forall slot ensures Within(Do(s, FinishReservation(i, written)), quotas, slot) {
      assert Within(s, quotas, slot);
      ChargedUpdate(s.entries, i, Entry(e.r, true, Clamp(written, e.r.bytes)), slot);
    }
  }

  lemma ReserveSafe(s: State, tid: Tid, req: Request, now: Time, quotas: Quotas)
    requires SafetyInv(s, quotas) && FixedRequest(req, quotas) && RequestClockOk(s, req) && tid !in s.threads
    ensures SafetyInv(DoReserve(s, tid, req, now), quotas)
  {
    if EnterGate(s.mem, now).1.Pass? {
      GrantSafe(s, tid, req, quotas);
    } else {
      ReserveAccounts(s, tid, req, now);
      SameCharges(s, DoReserve(s, tid, req, now), quotas);
    }
  }

  lemma FlushSafe(s: State, step: Step, quotas: Quotas)
    requires SafetyInv(s, quotas) && Enabled(s, step) && (step.RoundTop? || step.SaveOk? || step.SaveFail?)
    ensures SafetyInv(Do(s, step), quotas)
  {
    hide AccountInv, Within;
    StepKeepsAccounts(s, step);
    assert PhaseFixed(s.threads[step.tid], quotas);
    SameCharges(s, Do(s, step), quotas);
  }

  lemma StepSafe(s: State, step: Step, quotas: Quotas)
    requires SafetyInv(s, quotas) && Enabled(s, step) && Disciplined(s, step) && FixedStep(step, quotas)
    ensures SafetyInv(Do(s, step), quotas)
  {
    match step
    case Reserve(tid, req, now) => ReserveSafe(s, tid, req, now, quotas);
    case GrantAfterFlush(tid, day, month) =>
      assert PhaseFixed(s.threads[tid], quotas);
      GrantSafe(s, tid, s.threads[tid].req.(day := day, month := month), quotas);
    case FinishReservation(i, written) => FinishSafe(s, i, written, quotas);
    case SaveExact(ok, landed) =>
      StepKeepsAccounts(s, step);
      SameCharges(s, DoSaveExact(s, ok, landed), quotas);
    case Crash => StepKeepsAccounts(s, step);
    case _ => FlushSafe(s, step, quotas);
  }

  // ---------- Whole runs ----------

  /** Every step keeps the clock's bound, uses its rule's fixed quota, and saves exactly only when idle. */
  predicate Legal(s: State, steps: seq<Step>, quotas: Quotas)
    requires Executable(s, steps)
    decreases |steps|
  {
    steps != [] ==>
      Disciplined(s, steps[0]) && FixedStep(steps[0], quotas) && Legal(Do(s, steps[0]), steps[1..], quotas)
  }

  lemma {:induction false} RunSafe(s: State, steps: seq<Step>, quotas: Quotas)
    requires SafetyInv(s, quotas) && Executable(s, steps) && Legal(s, steps, quotas)
    ensures SafetyInv(Run(s, steps), quotas)
    decreases |steps|
  {
    if steps != [] {
      StepSafe(s, steps[0], quotas);
      RunSafe(Do(s, steps[0]), steps[1..], quotas);
    }
  }

  lemma StartSafe(content: Content, quotas: Quotas)
    requires ContentOk(content)
    ensures SafetyInv(Start(content), quotas)
  {
    StartOk(content);
    var s := Start(content);
    var snapshot := Snapshot(0, content, content);
    assert SnapshotOk(snapshot);
    forall slot ensures SlotOk(s, slot) { ReloadCovers(snapshot, slot); }
  }

  /** Quota safety: in every reachable state, usage of a retained period is
      baseline plus written plus outstanding bytes, and that sum, for every
      period, is at most the limit unless the loaded baseline already was not. */
  lemma QuotaSafe(content: Content, quotas: Quotas, steps: seq<Step>, slot: Slot)
    requires ContentOk(content) && Executable(Start(content), steps) && Legal(Start(content), steps, quotas)
    ensures var s := Run(Start(content), steps);
      && (slot !in s.dropped ==> Used(s.mem, slot) == Mark(s.base, slot) + Charged(s.entries, slot))
      && (slot.0 in quotas && quotas[slot.0].Limit(slot.1) > 0 && Mark(s.base, slot) <= quotas[slot.0].Limit(slot.1) ==>
            Mark(s.base, slot) + Charged(s.entries, slot) <= quotas[slot.0].Limit(slot.1))
  {
    StartSafe(content, quotas);
    RunSafe(Start(content), steps, quotas);
    var s := Run(Start(content), steps);
    assert SlotOk(s, slot) && Within(s, quotas, slot);
  }

  // ---------- The refund clamp ----------

  /** Finishing gives back exactly the unwritten bytes if and only if the
      period still has its durable key: pruning is the only thing that makes
      the refund clamp fire. */
  lemma RefundExactIff(s: State, i: nat, written: int, slot: Slot)
    requires AccountInv(s) && i < |s.entries| && !s.entries[i].finished && ChargesSlot(s.entries[i].r, slot)
    requires Clamp(written, s.entries[i].r.bytes) < s.entries[i].r.bytes
    ensures var amount := s.entries[i].r.bytes - Clamp(written, s.entries[i].r.bytes);
      Used(Do(s, FinishReservation(i, written)).mem, slot) == Used(s.mem, slot) - amount <==> HasDurable(s.mem, slot)
  {
    assert SlotOk(s, slot);
    assert Outstanding(s, slot);
    ChargesOk(s);
    ChargedAtLeast(s.entries, i, slot);
    MarksNonNegative(s.base);
    UsedWithinDurable(s.mem, slot);
    RefundEffect(s, i, written, slot);
  }

  const SAMPLE := Quota(100, 0)

  function SampleRequest(day: Period): Request { Request("r", SAMPLE, 10, false, 10, day, 0) }

  const SAMPLE_CONTENT: Content := map["r" := Marks(map[-3 := 5, -2 := 5, -1 := 5], map[])]

  lemma FirstSampleGrant(m: Memory)
    requires m == Loaded(SAMPLE_CONTENT)
    ensures Granting(m, SampleRequest(0)) == 10
    ensures "r" in AfterGrant(m, SampleRequest(0), true).states
    ensures AfterGrant(m, SampleRequest(0), true).states["r"].daily.used == SAMPLE_CONTENT["r"].daily[0 := 10]
    ensures !AfterGrant(m, SampleRequest(0), true).flushErr
  {
    var t := UsageOf(m, "r").daily;
    assert t.used.Keys == {-3, -2, -1};
    assert PruneTrack(t, 0) == t;
    assert At(t.used, 0) == 0;
    GrantedTrack(m, SampleRequest(0), Daily);
  }

  lemma SecondSamplePrune(t: Track)
    requires t.used == SAMPLE_CONTENT["r"].daily[0 := 10]
    ensures 0 in Removed(t, PruneTrack(t, 3))
  {
    assert t.used.Keys == {-3, -2, -1, 0};
    assert 0 !in PruneTrack(t, 3).used && 0 !in PruneTrack(t, 3).durable;
  }

  lemma SecondSampleGrant(m: Memory)
    requires "r" in m.states && m.states["r"].daily.used == SAMPLE_CONTENT["r"].daily[0 := 10]
    ensures Used(AfterGrant(m, SampleRequest(3), true), SAMPLE_SLOT) == 0
    ensures !HasDurable(AfterGrant(m, SampleRequest(3), true), SAMPLE_SLOT)
  {
    hide PruneTrack, ChargeTrack, Removed, Granting, GrantedUsage;
    var t := UsageOf(m, "r").daily;
    var req := SampleRequest(3);
    SecondSamplePrune(t);
    GrantedTrack(m, req, Daily);
    TrackEffect(t, 3, 100, Granting(m, req), Chunk(req), 0);
  }

  const SAMPLE_SLOT: Slot := ("r", Daily, 0)

  const SAMPLE_QUOTAS: Quotas := map["r" := SAMPLE]

  function FirstStep(): Step { Reserve(0, SampleRequest(0), 0) }

  function SecondStep(): Step { Reserve(1, SampleRequest(3), 0) }

  /** The first step: granted, and its goroutine goes on as the flusher. */
  lemma FirstSampleStep()
    ensures var s := Start(SAMPLE_CONTENT);
      var s1 := DoGrant(s, 0, SampleRequest(0));
      && Enabled(s, FirstStep()) && Do(s, FirstStep()) == s1
      && Disciplined(s, FirstStep()) && FixedStep(FirstStep(), SAMPLE_QUOTAS)
      && 1 !in s1.threads && !s1.mem.flushErr
      && s1.newest == map[("r", Daily) := 0, ("r", Monthly) := 0]
      && s1.entries == [Entry(Reserved(SampleRequest(0), 10), false, 0)]
      && "r" in s1.mem.states && s1.mem.states["r"].daily.used == SAMPLE_CONTENT["r"].daily[0 := 10]
  {
    hide AfterGrant, Pruned;
    FirstSampleGrant(Start(SAMPLE_CONTENT).mem);
  }

  lemma SecondSampleStep(s1: State)
    requires 1 !in s1.threads && !s1.mem.flushErr
    requires s1.newest == map[("r", Daily) := 0, ("r", Monthly) := 0]
    requires s1.entries == [Entry(Reserved(SampleRequest(0), 10), false, 0)]
    requires "r" in s1.mem.states && s1.mem.states["r"].daily.used == SAMPLE_CONTENT["r"].daily[0 := 10]
    ensures Enabled(s1, SecondStep()) && Disciplined(s1, SecondStep()) && FixedStep(SecondStep(), SAMPLE_QUOTAS)
    ensures var s2 := Do(s1, SecondStep());
      && |s2.entries| > 0 && s2.entries[0] == Entry(Reserved(SampleRequest(0), 10), false, 0)
      && Used(s2.mem, SAMPLE_SLOT) == 0 && !HasDurable(s2.mem, SAMPLE_SLOT)
  {
    hide AfterGrant, Pruned, NewEntries, RaisesFlush;
    SecondSampleGrant(s1.mem);
    assert Do(s1, SecondStep()) == DoGrant(s1, 1, SampleRequest(3));
  }

  /** Reservation i has bytes of this slot to give back, but the slot's keys are
      gone, it reads as zero, and so it still does after the finish. */
  predicate RefundSwallowed(s: State, i: nat, written: int, slot: Slot)
  {
    && Enabled(s, FinishReservation(i, written))
    && ChargesSlot(s.entries[i].r, slot) && Clamp(written, s.entries[i].r.bytes) < s.entries[i].r.bytes
    && !HasDurable(s.mem, slot)
    && Used(s.mem, slot) == 0 && Used(Do(s, FinishReservation(i, written)).mem, slot) == 0
  }

  /** A finish that finds nothing to refund leaves nothing. */
  lemma FinishRefundsNothing(s: State)
    requires |s.entries| > 0 && s.entries[0] == Entry(Reserved(SampleRequest(0), 10), false, 0)
    requires Used(s.mem, SAMPLE_SLOT) == 0 && !HasDurable(s.mem, SAMPLE_SLOT)
    ensures RefundSwallowed(s, 0, 0, SAMPLE_SLOT)
  {
  }

  lemma TwoSteps(s: State, a: Step, b: Step, quotas: Quotas)
    requires Enabled(s, a) && Disciplined(s, a) && FixedStep(a, quotas)
    requires Enabled(Do(s, a), b) && Disciplined(Do(s, a), b) && FixedStep(b, quotas)
    ensures Executable(s, [a, b]) && Legal(s, [a, b], quotas) && Run(s, [a, b]) == Do(Do(s, a), b)
  {
    hide Enabled, Do, Disciplined, FixedStep;
    assert [a, b][1..] == [b] && [b][1..] == [];
    NoSteps(Do(Do(s, a), b), quotas);
    OneStep(Do(s, a), b, quotas);
  }

  lemma NoSteps(s: State, quotas: Quotas)
    ensures Executable(s, []) && Legal(s, [], quotas) && Run(s, []) == s
  {
  }

  lemma OneStep(s: State, b: Step, quotas: Quotas)
    requires Enabled(s, b) && Disciplined(s, b) && FixedStep(b, quotas)
    ensures Executable(s, [b]) && Legal(s, [b], quotas) && Run(s, [b]) == Do(s, b)
  {
    hide Enabled, Do, Disciplined, FixedStep;
    assert [b][1..] == [];
    NoSteps(Do(s, b), quotas);
  }

  /** The clamp can fire: in a legal run, whose clock never goes back, a
      reservation made on day 0 and still outstanding on day 3 finds its period
      pruned, and finishing it with nothing written refunds nothing. */
  lemma ClampCanFire()
    ensures ContentOk(SAMPLE_CONTENT)
    ensures Executable(Start(SAMPLE_CONTENT), [FirstStep(), SecondStep()]) && Legal(Start(SAMPLE_CONTENT), [FirstStep(), SecondStep()], SAMPLE_QUOTAS)
    ensures FirstStep().Reserve? && SecondStep().Reserve? && FirstStep().req.day < SecondStep().req.day && FirstStep().req.month == SecondStep().req.month
    ensures RefundSwallowed(Run(Start(SAMPLE_CONTENT), [FirstStep(), SecondStep()]), 0, 0, SAMPLE_SLOT)
  {
    hide *;
    SampleClock();
    SampleContentOk();
    FirstSampleStep();
    var s := Start(SAMPLE_CONTENT);
    var s1 := Do(s, FirstStep());
    SecondSampleStep(s1);
    TwoSteps(s, FirstStep(), SecondStep(), SAMPLE_QUOTAS);
    FinishRefundsNothing(Do(s1, SecondStep()));
  }

  lemma SampleClock()
    ensures FirstStep().Reserve? && SecondStep().Reserve? && FirstStep().req.day < SecondStep().req.day && FirstStep().req.month == SecondStep().req.month
  {
  }

  lemma SampleContentOk()
    ensures ContentOk(SAMPLE_CONTENT)
  {
  }
}

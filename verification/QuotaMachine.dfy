/** The ledger as a state machine over its critical sections, its store writes,
    and crashes.  The ledger has a store.  Any number of reserving goroutines and flushers interleave. */
module QuotaMachine {
  import opened Wrappers
  import opened QuotaModel

  type Tid = nat

  /** What the flush loop does when it ends: a background flusher stops, a
      reserve that retried a failed save goes on to its granting section. */
  datatype Then = Stop | ThenGrant(req: Request)

  /** Where a goroutine stands between two critical sections. */
  datatype Phase =
    | AtFlushTop(next: Then)
    | Saving(snapshot: Snapshot, next: Then)
    | AtGrant(req: Request)

  /** A save's content.  `stamp` (the order snapshots are taken in) and `used`
      (usage at that moment) are history: the store keeps only `content`. */
  datatype Snapshot = Snapshot(stamp: nat, content: Content, used: Content)

  /** A reservation and, once finished, the bytes written under it. */
  datatype Entry = Entry(r: Reservation, finished: bool, written: int) {
    /** Bytes this reservation still accounts for. */
    function Charge(): int { if finished then written else r.bytes }
  }

  type Slot = (RuleId, Kind, Period)

  /** `mem`, `threads` and `store.content` are the program's state; the rest is history. */
  datatype State = State(
    mem: Memory,
    threads: map<Tid, Phase>,
    store: Snapshot,
    taken: nat,
    entries: seq<Entry>,
    base: Content,
    newest: map<(RuleId, Kind), Period>,
    dropped: set<Slot>)

  datatype Step =
    | Reserve(tid: Tid, req: Request, now: Time)
    | GrantAfterFlush(tid: Tid, day: Period, month: Period)
    | RoundTop(tid: Tid)
    | SaveOk(tid: Tid)
    | SaveFail(tid: Tid, landed: bool, now: Time)
    | FinishReservation(index: nat, written: int)
    | SaveExact(ok: bool, landed: bool)
    | Crash

  // ---------- Reading a state ----------

  function Used(m: Memory, s: Slot): int { At(UsageOf(m, s.0).Of(s.1).used, s.2) }

  function Durable(m: Memory, s: Slot): int { At(UsageOf(m, s.0).Of(s.1).durable, s.2) }

  predicate HasDurable(m: Memory, s: Slot) { s.2 in UsageOf(m, s.0).Of(s.1).durable }

  function Mark(c: Content, s: Slot): int
  {
    if s.0 in c then At(c[s.0].Of(s.1), s.2) else 0
  }

  predicate ChargesSlot(r: Reservation, s: Slot) { r.ruleId == s.0 && r.Period(s.1) == Some(s.2) }

  function EntryCharge(e: Entry, s: Slot): int { if ChargesSlot(e.r, s) then e.Charge() else 0 }

  /** Bytes written by finished reservations plus bytes still outstanding. */
  function Charged(entries: seq<Entry>, s: Slot): int
  {
    if entries == [] then 0 else Charged(entries[..|entries| - 1], s) + EntryCharge(entries[|entries| - 1], s)
  }

  // ---------- Steps ----------

  function Newest(s: State, ruleId: RuleId, kind: Kind, active: Period): Period
  {
    if (ruleId, kind) in s.newest then Max(s.newest[(ruleId, kind)], active) else active
  }

  function Removed(before: Track, after: Track): set<Period>
  {
    (before.used.Keys + before.durable.Keys) - (after.used.Keys + after.durable.Keys)
  }

  /** Slots whose keys this request's pruning removes. */
  function Pruned(m: Memory, req: Request): set<Slot>
  {
    var before := UsageOf(m, req.ruleId);
    var after := PrunedUsage(m, req);
    (set p | p in Removed(before.daily, after.daily) :: (req.ruleId, Daily, p)) +
    (set p | p in Removed(before.monthly, after.monthly) :: (req.ruleId, Monthly, p))
  }

  function NewEntries(m: Memory, req: Request): seq<Entry>
  {
    if Granting(m, req) > 0 then [Entry(Reserved(req, Granting(m, req)), false, 0)] else []
  }

  /** The granting section, run by goroutine `tid`; it may start a background flusher. */
  function DoGrant(s: State, tid: Tid, req: Request): State
  {
    State(AfterGrant(s.mem, req, true),
          if RaisesFlush(s.mem, req, true) && !s.mem.flushing then s.threads[tid := AtFlushTop(Stop)] else s.threads - {tid},
          s.store, s.taken,
          s.entries + NewEntries(s.mem, req),
          s.base,
          s.newest[(req.ruleId, Daily) := Newest(s, req.ruleId, Daily, req.day)]
                  [(req.ruleId, Monthly) := Newest(s, req.ruleId, Monthly, req.month)],
          s.dropped + Pruned(s.mem, req))
  }

  function DoReserve(s: State, tid: Tid, req: Request, now: Time): State
  {
    var (mem, gate) := EnterGate(s.mem, now);
    match gate
    case Pass => DoGrant(s, tid, req)
    case Refuse => s.(mem := mem)
    case RetryFlush => s.(mem := mem, threads := s.threads[tid := AtFlushTop(ThenGrant(req))])
  }

  function DoRoundTop(s: State, tid: Tid): State
    requires tid in s.threads && s.threads[tid].AtFlushTop?
  {
    var next := s.threads[tid].next;
    var (mem, snapshot) := FlushTop(s.mem);
    match snapshot
    case Some(content) =>
      s.(mem := mem, taken := s.taken + 1,
         threads := s.threads[tid := Saving(Snapshot(s.taken, content, UsedContent(s.mem)), next)])
    case None =>
      s.(mem := mem, threads := if next.Stop? then s.threads - {tid} else s.threads[tid := AtGrant(next.req)])
  }

  function DoSaveExact(s: State, ok: bool, landed: bool): State
  {
    var mem := Exact(s.mem);
    var snapshot := Snapshot(s.taken, DurableContent(mem), UsedContent(mem));
    s.(mem := if ok then mem.(flushErr := false) else mem,
       taken := s.taken + 1,
       store := if ok || landed then snapshot else s.store)
  }

  function DoCrash(s: State): State
  {
    s.(mem := Loaded(s.store.content), threads := map[], entries := [], base := s.store.content,
       newest := map[], dropped := {})
  }

  predicate Enabled(s: State, step: Step)
  {
    match step
    case Reserve(tid, req, _) => tid !in s.threads && !Unlimited(req)
    case GrantAfterFlush(tid, _, _) => tid in s.threads && s.threads[tid].AtGrant?
    case RoundTop(tid) => tid in s.threads && s.threads[tid].AtFlushTop?
    case SaveOk(tid) => tid in s.threads && s.threads[tid].Saving?
    case SaveFail(tid, _, _) => tid in s.threads && s.threads[tid].Saving?
    case FinishReservation(i, _) => i < |s.entries| && !s.entries[i].finished
    case SaveExact(_, _) => !s.mem.flushing
    case Crash => true
  }

  /** One atomic step. */
  function Do(s: State, step: Step): State
    requires Enabled(s, step)
  {
    match step
    case Reserve(tid, req, now) => DoReserve(s, tid, req, now)
    case GrantAfterFlush(tid, day, month) =>
      DoGrant(s, tid, s.threads[tid].req.(day := day, month := month))
    case RoundTop(tid) => DoRoundTop(s, tid)
    case SaveOk(tid) =>
      s.(store := s.threads[tid].snapshot, threads := s.threads[tid := AtFlushTop(s.threads[tid].next)])
    case SaveFail(tid, landed, now) =>
      s.(mem := FlushFailed(s.mem, now), threads := s.threads - {tid},
         store := if landed then s.threads[tid].snapshot else s.store)
    case FinishReservation(i, written) =>
      var e := s.entries[i];
      s.(mem := Finish(s.mem, e.r, written),
         entries := s.entries[i := Entry(e.r, true, Clamp(written, e.r.bytes))])
    case SaveExact(ok, landed) => DoSaveExact(s, ok, landed)
    case Crash => DoCrash(s)
  }

  predicate Executable(s: State, steps: seq<Step>)
    decreases |steps|
  {
    steps != [] ==> Enabled(s, steps[0]) && Executable(Do(s, steps[0]), steps[1..])
  }

  function Run(s: State, steps: seq<Step>): State
    requires Executable(s, steps)
    decreases |steps|
  {
    if steps == [] then s else Run(Do(s, steps[0]), steps[1..])
  }

  /** A process started on what the store holds. */
  function Start(content: Content): State
  {
    State(Loaded(content), map[], Snapshot(0, content, content), 1, [], content, map[], {})
  }
}

/** The quota ledger's memory and the effect of each of its critical sections.

    A calendar period is an index into an ordered calendar: a day index for the
    daily budget and a month index for the monthly one.  Byte counts are 64-bit
    signed integers in the program; the one addition that may leave that range
    is written with `Wrap64`. */
module QuotaModel {
  import opened Wrappers

  type RuleId = string
  type Period = int
  type Time = int

  const RETRY_COOLDOWN: Time := 1_000_000_000
  const RETAINED_PAST_PERIODS := 2
  const DEFAULT_DURABLE_CHUNK := 0x80_0000

  /** The budget a rule's traffic is charged to; a limit of zero or less is absent. */
  datatype Kind = Daily | Monthly

  datatype Quota = Quota(daily: int, monthly: int) {
    function Limit(kind: Kind): int { if kind == Daily then daily else monthly }
  }

  /** Bytes charged and bytes promised to the store, by period, for one budget. */
  datatype Track = Track(used: map<Period, int>, durable: map<Period, int>)

  datatype Usage = Usage(daily: Track, monthly: Track) {
    function Of(kind: Kind): Track { if kind == Daily then daily else monthly }
  }

  const NO_USAGE := Usage(Track(map[], map[]), Track(map[], map[]))

  datatype Reservation = Reservation(ruleId: RuleId, dailyPeriod: Option<Period>, monthlyPeriod: Option<Period>, bytes: int)
  {
    function Period(kind: Kind): Option<Period> { if kind == Daily then dailyPeriod else monthlyPeriod }
  }

  /** Everything guarded by the ledger's mutex. */
  datatype Memory = Memory(
    states: map<RuleId, Usage>,
    flushPending: bool,
    flushErr: bool,
    flushing: bool,
    flushFailAt: Time)

  /** One call of reserve; `day` and `month` are the active periods in the quota's time zone. */
  datatype Request = Request(
    ruleId: RuleId, quota: Quota, requested: int, allOrNothing: bool, durableChunk: int,
    day: Period, month: Period)
  {
    function Period(kind: Kind): Period { if kind == Daily then day else month }
  }

  // ---------- Small pieces ----------

  /** A Go map read: an absent key reads as zero. */
  function At(values: map<Period, int>, p: Period): int
  {
    if p in values then values[p] else 0
  }

  function Bump(values: map<Period, int>, p: Period, amount: int): map<Period, int>
  {
    values[p := At(values, p) + amount]
  }

  predicate MustGrow(t: Track, p: Period, allowed: int)
  {
    At(t.durable, p) < At(t.used, p) + allowed
  }

  function GrowDurable(t: Track, p: Period, limit: int, allowed: int, chunk: int): Track
  {
    var required := At(t.used, p) + allowed;
    if !MustGrow(t, p, allowed) then t
    else t.(durable := t.durable[p := Min(limit, Max(required, Wrap64(At(t.durable, p) + chunk)))])
  }

  function PruneMap(values: map<Period, int>, cutoff: Period): map<Period, int>
  {
    map p | p in values && p >= cutoff :: values[p]
  }

  /** Keys older than the retained window go, but only once there are too many of them. */
  function PruneTrack(t: Track, active: Period): Track
  {
    if |t.used| > RETAINED_PAST_PERIODS + 1 then
      Track(PruneMap(t.used, active - RETAINED_PAST_PERIODS), PruneMap(t.durable, active - RETAINED_PAST_PERIODS))
    else t
  }

  function Refund(used: map<Period, int>, period: Option<Period>, amount: int): map<Period, int>
  {
    if period.None? || amount <= 0 then used
    else used[period.value := if At(used, period.value) > amount then At(used, period.value) - amount else 0]
  }

  // ---------- reserve ----------

  datatype Gate = Pass | Refuse | RetryFlush

  predicate Unlimited(req: Request)
  {
    req.requested <= 0 || (req.quota.daily <= 0 && req.quota.monthly <= 0)
  }

  /** The first critical section: an earlier save failure closes the gate. */
  function EnterGate(m: Memory, now: Time): (Memory, Gate)
  {
    if !m.flushErr then (m, Pass)
    else if now - m.flushFailAt < RETRY_COOLDOWN then (m, Refuse)
    else if m.flushing then (m.(flushPending := true), Refuse)
    else (m.(flushPending := true, flushing := true), RetryFlush)
  }

  function UsageOf(m: Memory, ruleId: RuleId): Usage
  {
    if ruleId in m.states then m.states[ruleId] else NO_USAGE
  }

  /** Pruned usage of the request's rule: what admission is decided on. */
  function PrunedUsage(m: Memory, req: Request): Usage
  {
    var usage := UsageOf(m, req.ruleId);
    Usage(PruneTrack(usage.daily, req.day), PruneTrack(usage.monthly, req.month))
  }

  function CapBy(allowed: int, limit: int, used: int): int
  {
    if limit > 0 then Min(allowed, Max(0, limit - used)) else allowed
  }

  function Allowed(usage: Usage, req: Request): int
  {
    CapBy(CapBy(req.requested, req.quota.daily, At(usage.daily.used, req.day)),
          req.quota.monthly, At(usage.monthly.used, req.month))
  }

  function Chunk(req: Request): int
  {
    if req.durableChunk <= 0 then DEFAULT_DURABLE_CHUNK else req.durableChunk
  }

  function ChargeTrack(t: Track, p: Period, limit: int, allowed: int, chunk: int): Track
  {
    if limit <= 0 then t
    else var grown := GrowDurable(t, p, limit, allowed, chunk); grown.(used := Bump(grown.used, p, allowed))
  }

  function Reserved(req: Request, allowed: int): Reservation
  {
    Reservation(req.ruleId,
                if req.quota.daily > 0 then Some(req.day) else None,
                if req.quota.monthly > 0 then Some(req.month) else None,
                allowed)
  }

  predicate WatermarkGrows(usage: Usage, req: Request, allowed: int)
  {
    (req.quota.daily > 0 && MustGrow(usage.daily, req.day, allowed)) ||
    (req.quota.monthly > 0 && MustGrow(usage.monthly, req.month, allowed))
  }

  /** Bytes granted, or zero when the quota refuses the request. */
  function Granting(m: Memory, req: Request): int
  {
    var allowed := Allowed(PrunedUsage(m, req), req);
    if allowed <= 0 || (req.allOrNothing && allowed < req.requested) then 0 else allowed
  }

  predicate RaisesFlush(m: Memory, req: Request, hasStore: bool)
  {
    hasStore && Granting(m, req) > 0 && WatermarkGrows(PrunedUsage(m, req), req, Granting(m, req))
  }

  function ChargedUsage(usage: Usage, req: Request, allowed: int): Usage
  {
    Usage(ChargeTrack(usage.daily, req.day, req.quota.daily, allowed, Chunk(req)),
          ChargeTrack(usage.monthly, req.month, req.quota.monthly, allowed, Chunk(req)))
  }

  /** The rule's usage after the granting critical section of reserve. */
  function GrantedUsage(m: Memory, req: Request): Usage
  {
    if Granting(m, req) == 0 then PrunedUsage(m, req) else ChargedUsage(PrunedUsage(m, req), req, Granting(m, req))
  }

  /** The ledger after the granting critical section of reserve. */
  function AfterGrant(m: Memory, req: Request, hasStore: bool): Memory
  {
    Memory(m.states[req.ruleId := GrantedUsage(m, req)],
           m.flushPending || RaisesFlush(m, req, hasStore),
           m.flushErr,
           m.flushing || RaisesFlush(m, req, hasStore),
           m.flushFailAt)
  }

  // ---------- finish ----------

  function Clamp(written: int, bytes: int): int
  {
    var w := if written < 0 then 0 else written;
    if w > bytes then bytes else w
  }

  function RefundUsage(usage: Usage, r: Reservation, amount: int): Usage
  {
    Usage(usage.daily.(used := Refund(usage.daily.used, r.dailyPeriod, amount)),
          usage.monthly.(used := Refund(usage.monthly.used, r.monthlyPeriod, amount)))
  }

  function Finish(m: Memory, r: Reservation, written: int): Memory
  {
    var amount := r.bytes - Clamp(written, r.bytes);
    if amount == 0 || r.ruleId !in m.states then m
    else m.(states := m.states[r.ruleId := RefundUsage(m.states[r.ruleId], r, amount)])
  }

  // ---------- runFlush and SaveExact ----------

  /** What one save writes: the durable watermark of every rule. */
  datatype Marks = Marks(daily: map<Period, int>, monthly: map<Period, int>) {
    function Of(kind: Kind): map<Period, int> { if kind == Daily then daily else monthly }
  }

  type Content = map<RuleId, Marks>

  function DurableContent(m: Memory): Content
  {
    map id | id in m.states :: Marks(m.states[id].daily.durable, m.states[id].monthly.durable)
  }

  function UsedContent(m: Memory): Content
  {
    map id | id in m.states :: Marks(m.states[id].daily.used, m.states[id].monthly.used)
  }

  /** The top of the flush loop: either the round drained, or a snapshot to save. */
  function FlushTop(m: Memory): (Memory, Option<Content>)
  {
    if !m.flushPending then (m.(flushErr := false, flushing := false), None)
    else (m.(flushPending := false), Some(DurableContent(m)))
  }

  function FlushFailed(m: Memory, now: Time): Memory
  {
    m.(flushErr := true, flushFailAt := now, flushing := false)
  }

  /** Durable credits replaced by the bytes actually charged. */
  function Exact(m: Memory): Memory
  {
    m.(flushPending := false,
       states := map id | id in m.states ::
         Usage(m.states[id].daily.(durable := m.states[id].daily.used),
               m.states[id].monthly.(durable := m.states[id].monthly.used)))
  }

  // ---------- Restart ----------

  function Loaded(content: Content): Memory
  {
    Memory(map id | id in content ::
             Usage(Track(content[id].daily, content[id].daily), Track(content[id].monthly, content[id].monthly)),
           false, false, false, 0)
  }
}

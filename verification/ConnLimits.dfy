/** The two limits one TCP connection meets on its own: a slot of its rule, and
    its private rate limiter. */
module ConnLimits {
  import opened Wrappers
  import RateLimiter

  // ---------- Connection slots: a compare-and-swap loop per connection ----------

  /** Where one connection is: before its load, holding a loaded count, admitted, turned away or gone. */
  datatype Conn = Arriving | Loaded(current: int) | Admitted | TurnedAway | Gone

  datatype Slots = Slots(maxConn: int, active: int, conns: seq<Conn>)

  datatype SlotStep = Arrive | Load(c: nat) | Swap(c: nat) | Leave(c: nat)

  predicate CanStep(s: Slots, step: SlotStep)
  {
    match step
    case Arrive => true
    case Load(c) => c < |s.conns| && s.conns[c] == Arriving
    case Swap(c) => c < |s.conns| && s.conns[c].Loaded?
    case Leave(c) => c < |s.conns| && s.conns[c] == Admitted
  }

  function SlotDo(s: Slots, step: SlotStep): Slots
    requires CanStep(s, step)
  {
    match step
    case Arrive => s.(conns := s.conns + [Arriving])
    case Load(c) =>
      if s.maxConn <= 0 then s.(active := s.active + 1, conns := s.conns[c := Admitted])
      else if s.active >= s.maxConn then s.(conns := s.conns[c := TurnedAway])
      else s.(conns := s.conns[c := Loaded(s.active)])
    case Swap(c) =>
      if s.conns[c].current != s.active then s.(conns := s.conns[c := Arriving])
      else s.(active := s.active + 1, conns := s.conns[c := Admitted])
    case Leave(c) => s.(active := s.active - 1, conns := s.conns[c := Gone])
  }

  function Holders(conns: seq<Conn>): nat
  {
    if conns == [] then 0 else Holders(conns[..|conns| - 1]) + Holds(conns[|conns| - 1])
  }

  function Holds(c: Conn): nat { if c == Admitted then 1 else 0 }

  predicate SlotsOk(s: Slots)
  {
    && s.active == Holders(s.conns)
    && (s.maxConn > 0 ==> s.active <= s.maxConn)
    && (forall c :: 0 <= c < |s.conns| && s.conns[c].Loaded? ==> s.conns[c].current < s.maxConn)
  }

  lemma {:induction false} HoldersUpdated(conns: seq<Conn>, i: nat, c: Conn)
    requires i < |conns|
    ensures Holders(conns[i := c]) == Holders(conns) - Holds(conns[i]) + Holds(c)
  {
    var last := |conns| - 1;
    if i == last {
      assert conns[i := c][..last] == conns[..last];
    } else {
      HoldersUpdated(conns[..last], i, c);
      assert conns[i := c][..last] == conns[..last][i := c];
    }
  }

  /** In every interleaving of loads, swaps and departures the counter is the
      number of connections holding a slot, and a limit is never exceeded. */
  lemma SlotStepKeeps(s: Slots, step: SlotStep)
    requires SlotsOk(s) && CanStep(s, step)
    ensures SlotsOk(SlotDo(s, step))
  {
    hide Holders;
    match step
    case Arrive => assert (s.conns + [Arriving])[..|s.conns|] == s.conns; NewcomerHoldsNothing(s.conns);
    case Load(c) => HoldersUpdated(s.conns, c, SlotDo(s, step).conns[c]);
    case Swap(c) => HoldersUpdated(s.conns, c, SlotDo(s, step).conns[c]);
    case Leave(c) => HoldersUpdated(s.conns, c, Gone);
  }

  lemma NewcomerHoldsNothing(conns: seq<Conn>)
    ensures Holders(conns + [Arriving]) == Holders(conns)
  {
    assert (conns + [Arriving])[..|conns|] == conns;
  }

  predicate CanRun(s: Slots, steps: seq<SlotStep>)
    decreases |steps|
  {
    steps == [] || (CanStep(s, steps[0]) && CanRun(SlotDo(s, steps[0]), steps[1..]))
  }

  function SlotRun(s: Slots, steps: seq<SlotStep>): Slots
    requires CanRun(s, steps)
    decreases |steps|
  {
    if steps == [] then s else SlotRun(SlotDo(s, steps[0]), steps[1..])
  }

  lemma {:induction false} SlotRunKeeps(s: Slots, steps: seq<SlotStep>)
    requires SlotsOk(s) && CanRun(s, steps)
    ensures SlotsOk(SlotRun(s, steps)) && SlotRun(s, steps).maxConn == s.maxConn
    decreases |steps|
  {
    hide SlotsOk;
    if steps != [] {
      SlotStepKeeps(s, steps[0]);
      SlotRunKeeps(SlotDo(s, steps[0]), steps[1..]);
    }
  }

  lemma NeverTooManyConnections(maxConn: int, steps: seq<SlotStep>)
    requires maxConn > 0 && CanRun(Slots(maxConn, 0, []), steps)
    ensures Holders(SlotRun(Slots(maxConn, 0, []), steps).conns) <= maxConn
  {
    SlotRunKeeps(Slots(maxConn, 0, []), steps);
  }

  // ---------- The private rate limiter ----------

  datatype Limiter = Limiter(limit: int, allowance: real, last: real)

  /** One wait for `bytes` begun at `now`; `woke` is when a sleep, if there was one, ended. */
  datatype Wait = Wait(bytes: int, now: real, woke: real)

  const NANO := 0.000000001

  function Refilled(l: Limiter, now: real): Limiter
  {
    l.(allowance := RateLimiter.MinReal(l.limit as real, l.allowance + (now - l.last) * l.limit as real), last := now)
  }

  predicate Sleeps(l: Limiter, w: Wait) { w.bytes > 0 && Refilled(l, w.now).allowance < w.bytes as real }

  function Nap(l: Limiter, w: Wait): real
    requires l.limit > 0
  {
    RateLimiter.WholeNanos((w.bytes as real - Refilled(l, w.now).allowance) / l.limit as real)
  }

  /** Clocks do not run backwards and a timer does not fire early. */
  predicate Timed(l: Limiter, w: Wait)
    requires l.limit > 0
  {
    w.now >= l.last && (Sleeps(l, w) ==> w.woke >= w.now + Nap(l, w))
  }

  function AfterWait(l: Limiter, w: Wait): Limiter
    requires l.limit > 0
  {
    if w.bytes <= 0 then l
    else if !Sleeps(l, w) then Refilled(l, w.now).(allowance := Refilled(l, w.now).allowance - w.bytes as real)
    else l.(allowance := 0.0, last := w.woke)
  }

  predicate AllTimed(l: Limiter, waits: seq<Wait>)
    requires l.limit > 0
    decreases |waits|
  {
    waits == [] || (Timed(l, waits[0]) && AllTimed(AfterWait(l, waits[0]), waits[1..]))
  }

  function AfterWaits(l: Limiter, waits: seq<Wait>): Limiter
    requires l.limit > 0
    decreases |waits|
  {
    if waits == [] then l else AfterWaits(AfterWait(l, waits[0]), waits[1..])
  }

  function Granted(waits: seq<Wait>): int { if waits == [] then 0 else Max(0, waits[0].bytes) + Granted(waits[1..]) }

  predicate LimiterOk(l: Limiter) { l.limit > 0 && 0.0 <= l.allowance <= l.limit as real }

  lemma RefilledOk(l: Limiter, now: real)
    requires LimiterOk(l) && now >= l.last
    ensures LimiterOk(Refilled(l, now))
    ensures Refilled(l, now).allowance <= l.allowance + (now - l.last) * l.limit as real
  {
    assert (now - l.last) * l.limit as real >= 0.0;
  }

  /** A sleep loses less than a nanosecond to the timer's resolution. */
  lemma NapCovers(l: Limiter, w: Wait)
    requires LimiterOk(l) && w.now >= l.last && Sleeps(l, w)
    ensures (Nap(l, w) + NANO) * l.limit as real >= w.bytes as real - Refilled(l, w.now).allowance
    ensures Nap(l, w) >= 0.0
  {
    hide Refilled, RateLimiter.WholeNanos;
    var missing := w.bytes as real - Refilled(l, w.now).allowance;
    var rate := l.limit as real;
    Quotient(missing, rate);
    assert missing > 0.0;
    var pause := missing / rate;
    assert Nap(l, w) == RateLimiter.WholeNanos(pause);
    Truncated(pause);
    Scaled(Nap(l, w) + NANO, pause, rate);
  }

  lemma Quotient(x: real, r: real)
    requires r > 0.0 && x >= 0.0
    ensures (x / r) * r == x && x / r >= 0.0
  {
  }

  lemma Truncated(x: real)
    requires x >= 0.0
    ensures RateLimiter.WholeNanos(x) + NANO >= x && RateLimiter.WholeNanos(x) >= 0.0
  {
    hide RateLimiter.WholeNanos;
    FloorBounds(x * 1_000_000_000.0);
    WholeNanosIs(x);
  }

  lemma WholeNanosIs(x: real)
    ensures RateLimiter.WholeNanos(x) * 1_000_000_000.0 == (x * 1_000_000_000.0).Floor as real
  {
  }

  lemma FloorBounds(x: real)
    requires x >= 0.0
    ensures 0.0 <= x.Floor as real <= x < x.Floor as real + 1.0
  {
  }

  lemma Scaled(x: real, y: real, r: real)
    requires x >= y && r > 0.0
    ensures x * r >= y * r
  {
  }

  lemma SleepArithmetic(held: real, refilled: real, bytes: real, nap: real, woke: real, now: real, last: real, rate: real)
    requires rate > 0.0 && woke >= now + nap
    requires refilled <= held + (now - last) * rate
    requires (nap + NANO) * rate >= bytes - refilled
    ensures bytes <= held + (woke - last + NANO) * rate
  {
    Scaled(woke - now + NANO, nap + NANO, rate);
    assert (woke - last + NANO) * rate == (woke - now + NANO) * rate + (now - last) * rate;
  }

  lemma TakeArithmetic(held: real, refilled: real, now: real, last: real, rate: real)
    requires rate > 0.0 && refilled <= held + (now - last) * rate
    ensures refilled <= held + (now - last + NANO) * rate
  {
    Scaled(now - last + NANO, now - last, rate);
  }

  lemma WaitWithinRate(l: Limiter, w: Wait)
    requires LimiterOk(l) && Timed(l, w)
    ensures var m := AfterWait(l, w);
      && LimiterOk(m) && m.limit == l.limit && m.last >= l.last
      && m.allowance + Max(0, w.bytes) as real <= l.allowance + (m.last - l.last + NANO) * l.limit as real
  {
    hide Nap;
    var rate := l.limit as real;
    if w.bytes <= 0 {
      Scaled(l.last - l.last + NANO, 0.0, rate);
    } else {
      RefilledOk(l, w.now);
      var refilled := Refilled(l, w.now).allowance;
      hide Refilled;
      if Sleeps(l, w) {
        NapCovers(l, w);
        SleepArithmetic(l.allowance, refilled, w.bytes as real, Nap(l, w), w.woke, w.now, l.last, rate);
      } else {
        RefillMoves(l, w.now);
        TakeArithmetic(l.allowance, refilled, w.now, l.last, rate);
      }
    }
  }

  lemma RefillMoves(l: Limiter, now: real)
    ensures Refilled(l, now).last == now && Refilled(l, now).limit == l.limit
  {
  }

  /** Adding the bounds of the first wait and of the others. */
  lemma Chain(held: real, one: real, kept: real, rest: real, left: real, c: real, b: real, a: real, n: real, r: real)
    requires kept + one <= held + (b - a + NANO) * r
    requires left + rest <= kept + (c - b + n * NANO) * r
    ensures left + (one + rest) <= held + (c - a + (n + 1.0) * NANO) * r
  {
    assert (c - b + n * NANO) * r + (b - a + NANO) * r == (c - a + (n + 1.0) * NANO) * r;
  }

  function Bound(l: Limiter, until: real, waits: nat): real
  {
    l.allowance + (until - l.last + waits as real * NANO) * l.limit as real
  }

  lemma BoundGrows(l: Limiter, m: Limiter, end: Limiter, bytes: int, rest: int, n: nat)
    requires m.limit == l.limit
    requires m.allowance + bytes as real <= l.allowance + (m.last - l.last + NANO) * l.limit as real
    requires end.allowance + rest as real <= Bound(m, end.last, n)
    ensures end.allowance + (bytes + rest) as real <= Bound(l, end.last, n + 1)
  {
    Chain(l.allowance, bytes as real, m.allowance, rest as real, end.allowance, end.last, m.last, l.last, n as real, l.limit as real);
    assert (n + 1) as real == n as real + 1.0;
  }

  /** However the waits of a connection follow each other, what they grant is at
      most what the limiter held plus its rate over the time passed, up to a
      nanosecond's worth for each wait. */
  lemma {:induction false} WaitsWithinRate(l: Limiter, waits: seq<Wait>)
    requires l.limit > 0 && LimiterOk(l) && AllTimed(l, waits)
    ensures var m := AfterWaits(l, waits);
      && LimiterOk(m)
      && m.limit == l.limit
      && m.allowance + Granted(waits) as real <= Bound(l, m.last, |waits|)
    decreases |waits|
  {
    hide LimiterOk, AfterWait, Timed, Bound;
    if waits == [] {
      NoWaits(l);
    } else {
      var m := AfterWait(l, waits[0]);
      WaitWithinRate(l, waits[0]);
      WaitsWithinRate(m, waits[1..]);
      BoundGrows(l, m, AfterWaits(m, waits[1..]), Max(0, waits[0].bytes), Granted(waits[1..]), |waits[1..]|);
    }
  }

  lemma NoWaits(l: Limiter)
    ensures Bound(l, l.last, 0) == l.allowance
  {
    assert (l.last - l.last + 0.0 * NANO) * l.limit as real == 0.0;
  }

  lemma RefillTwice(l: Limiter, t: real, now: real)
    requires LimiterOk(l) && l.last <= t <= now
    ensures Refilled(Refilled(l, t), now) == Refilled(l, now)
  {
    var r := l.limit as real;
    assert (now - l.last) * r == (t - l.last) * r + (now - t) * r;
    assert (now - t) * r >= 0.0;
  }

  predicate NotBefore(waits: seq<Wait>, t: real) { forall i :: 0 <= i < |waits| ==> waits[i].now >= t }

  /** Refilling when a window opens changes nothing about the waits made in it. */
  lemma {:induction false} RefillFirst(l: Limiter, waits: seq<Wait>, t: real)
    requires l.limit > 0 && LimiterOk(l) && AllTimed(l, waits) && t >= l.last && NotBefore(waits, t)
    ensures AllTimed(Refilled(l, t), waits)
    ensures var m, n := AfterWaits(l, waits), AfterWaits(Refilled(l, t), waits); n == m || (n.last == t && m.last == l.last)
    decreases |waits|
  {
    hide LimiterOk;
    if waits != [] {
      RefillTwice(l, t, waits[0].now);
      hide Refilled;
      if waits[0].bytes <= 0 {
        RefillFirst(l, waits[1..], t);
      }
    }
  }

  lemma BoundWithin(full: Limiter, end: Limiter, granted: int, t2: real, n: nat)
    requires LimiterOk(full) && LimiterOk(end) && end.last <= t2
    requires end.allowance + granted as real <= Bound(full, end.last, n)
    ensures granted as real <= full.limit as real + (t2 - full.last + n as real * NANO) * full.limit as real
  {
    var nap := n as real * NANO;
    Scaled(t2 - full.last + nap, end.last - full.last + nap, full.limit as real);
  }

  /** Over any time window, opening and closing whenever it likes, the waits of
      a connection grant at most one second's worth plus the rate times the
      window's length, up to a nanosecond's worth for each wait. */
  lemma WaitWindowBound(l: Limiter, waits: seq<Wait>, t1: real, t2: real)
    requires l.limit > 0 && LimiterOk(l) && AllTimed(l, waits) && t1 >= l.last && NotBefore(waits, t1)
    requires t2 >= t1 && t2 >= AfterWaits(l, waits).last
    ensures Granted(waits) as real <= l.limit as real + (t2 - t1 + |waits| as real * NANO) * l.limit as real
  {
    hide AllTimed, AfterWaits, Refilled, LimiterOk, Granted, Bound;
    RefillFirst(l, waits, t1);
    RefilledOk(l, t1);
    RefillMoves(l, t1);
    var full := Refilled(l, t1);
    WaitsWithinRate(full, waits);
    var end := AfterWaits(full, waits);
    BoundWithin(full, end, Granted(waits), t2, |waits|);
  }
}

/** The shared FIFO token bucket: one per rule and direction.

    Times are seconds and tokens are bytes, both as reals.  A waiter's `turn`
    channel is closed when the waiter is in `turns`. */
module RateLimiter {
  import opened Wrappers

  type Waiter = nat

  const MINIMUM_BURST := 0x1_0000
  const MAXIMUM_BURST := 0x40_0000

  datatype Bucket = Bucket(rate: int, burst: int, tokens: real, last: real, queue: seq<Waiter>, turns: set<Waiter>)

  function AutomaticBurst(rate: int): (burst: int)
    ensures rate > 0 ==> MINIMUM_BURST <= burst <= MAXIMUM_BURST
  {
    if rate <= 0 then 0 else Min(Max(rate / 10, MINIMUM_BURST), MAXIMUM_BURST)
  }

  // ---------- Critical sections ----------

  function Join(b: Bucket, w: Waiter): Bucket
  {
    var queue := b.queue + [w];
    b.(queue := queue, turns := if |queue| == 1 then b.turns + {w} else b.turns)
  }

  function MinReal(a: real, b: real): real { if a <= b then a else b }

  function Refill(b: Bucket, now: real): Bucket
  {
    if now > b.last
    then b.(tokens := MinReal(b.burst as real, b.tokens + (now - b.last) * b.rate as real), last := now)
    else b
  }

  /** Hands the turn to whoever is now first. */
  function OpenHead(b: Bucket): Bucket
  {
    if b.queue == [] then b else b.(turns := b.turns + {b.queue[0]})
  }

  function PopHead(b: Bucket, w: Waiter): Bucket
  {
    if b.queue == [] || b.queue[0] != w then b else OpenHead(b.(queue := b.queue[1..]))
  }

  /** One attempt: refill, then take the bytes if they are there. */
  function Attempt(b: Bucket, w: Waiter, bytes: int, now: real): (Bucket, bool)
  {
    var r := Refill(b, now);
    if r.tokens >= bytes as real then (PopHead(r.(tokens := r.tokens - bytes as real), w), true) else (r, false)
  }

  function IndexOf(queue: seq<Waiter>, w: Waiter): (i: nat)
    ensures i <= |queue| && (i < |queue| ==> queue[i] == w) && forall j :: 0 <= j < i ==> queue[j] != w
  {
    if queue == [] || queue[0] == w then 0 else 1 + IndexOf(queue[1..], w)
  }

  /** A cancelled waiter leaves; if it was first, the turn passes on. */
  function Leave(b: Bucket, w: Waiter): Bucket
  {
    var i := IndexOf(b.queue, w);
    if i == |b.queue| then b
    else
      var left := b.(queue := b.queue[..i] + b.queue[i + 1..]);
      if i == 0 then OpenHead(left) else left
  }

  /** Whole nanoseconds, as a duration stores them. */
  function WholeNanos(seconds: real): real
  {
    (seconds * 1_000_000_000.0).Floor as real / 1_000_000_000.0
  }

  /** How long a waiter sleeps before its next attempt. */
  function Pause(b: Bucket, bytes: int): real
    requires b.rate > 0
  {
    var wait := WholeNanos((bytes as real - b.tokens) / b.rate as real);
    if wait < 0.001 then 0.001 else wait
  }

  /** The limiter's own invariant. */
  predicate BucketOk(b: Bucket)
  {
    b.rate > 0 && b.burst >= MINIMUM_BURST && 0.0 <= b.tokens <= b.burst as real &&
    (forall i, j :: 0 <= i < j < |b.queue| ==> b.queue[i] != b.queue[j]) &&
    (forall i :: 0 <= i < |b.queue| ==> (b.queue[i] in b.turns <==> i == 0))
  }

  /** The limiter as an object; every method is one critical section. */
  class SharedRateLimiter {
    const rate: int
    const burst: int
    var tokens: real
    var last: real
    var queue: seq<Waiter>
    var turns: set<Waiter>

    function View(): Bucket
      reads this
    {
      Bucket(rate, burst, tokens, last, queue, turns)
    }

    constructor (rate: int, burst: int, now: real)
      requires rate > 0
      ensures this.rate == rate && this.burst == Max(burst, MINIMUM_BURST)
      ensures tokens == this.burst as real && last == now && queue == [] && BucketOk(View())
    {
      this.rate := rate;
      this.burst := Max(burst, MINIMUM_BURST);
      tokens := Max(burst, MINIMUM_BURST) as real;
      last, queue, turns := now, [], {};
    }

    method Enqueue(w: Waiter)
      modifies this
      ensures View() == Join(old(View()), w)
    {
      queue := queue + [w];
      if |queue| == 1 { turns := turns + {w}; }
    }

    method TryTake(w: Waiter, bytes: int, now: real) returns (taken: bool)
      modifies this
      ensures (View(), taken) == Attempt(old(View()), w, bytes, now)
    {
      var elapsed := now - last;
      if elapsed > 0.0 {
        tokens := MinReal(burst as real, tokens + elapsed * rate as real);
        last := now;
      }
      assert View() == Refill(old(View()), now);
      hide Refill, MinReal;
      if tokens < bytes as real { return false; }
      tokens := tokens - bytes as real;
      PopHeadLocked(w);
      taken := true;
    }

    method PopHeadLocked(w: Waiter)
      modifies this`queue, this`turns
      ensures View() == PopHead(old(View()), w)
    {
      if |queue| == 0 || queue[0] != w { return; }
      queue := queue[1..];
      if |queue| > 0 { turns := turns + {queue[0]}; }
    }

    method Cancel(w: Waiter)
      modifies this`queue, this`turns
      ensures View() == Leave(old(View()), w)
    {
      for index := 0 to |queue|
        invariant View() == old(View())
        invariant forall j :: 0 <= j < index ==> queue[j] != w
      {
        if queue[index] == w {
          queue := queue[..index] + queue[index + 1..];
          if index == 0 && |queue| > 0 { turns := turns + {queue[0]}; }
          return;
        }
      }
    }
  }

  // ---------- Every interleaving of waiters ----------

  datatype Waiting = Waiting(bytes: int, hasTurn: bool)

  /** `bucket` and `waiting` are the program's state; the rest is history. */
  datatype State = State(
    bucket: Bucket,
    waiting: map<Waiter, Waiting>,
    clock: real,
    enqueued: seq<Waiter>,
    cancelled: set<Waiter>,
    granted: seq<Waiter>,
    total: int)

  datatype Step =
    | Enter(w: Waiter, bytes: int)
    | TakeTurn(w: Waiter)
    | Try(w: Waiter, now: real)
    | GiveUp(w: Waiter)

  predicate Enabled(s: State, step: Step)
  {
    match step
    case Enter(w, bytes) => w !in s.enqueued && bytes > 0
    case TakeTurn(w) => w in s.waiting && w in s.bucket.turns
    case Try(w, now) => w in s.waiting && s.waiting[w].hasTurn && now >= s.clock
    case GiveUp(w) => w in s.waiting
  }

  function Do(s: State, step: Step): State
    requires Enabled(s, step)
  {
    match step
    case Enter(w, bytes) =>
      s.(bucket := Join(s.bucket, w), waiting := s.waiting[w := Waiting(bytes, false)], enqueued := s.enqueued + [w])
    case TakeTurn(w) => s.(waiting := s.waiting[w := s.waiting[w].(hasTurn := true)])
    case Try(w, now) =>
      var (bucket, taken) := Attempt(s.bucket, w, s.waiting[w].bytes, now);
      if taken
      then s.(bucket := bucket, clock := now, waiting := s.waiting - {w}, granted := s.granted + [w], total := s.total + s.waiting[w].bytes)
      else s.(bucket := bucket, clock := now)
    case GiveUp(w) => s.(bucket := Leave(s.bucket, w), waiting := s.waiting - {w}, cancelled := s.cancelled + {w})
  }

  function Start(rate: int, burst: int, now: real): State
  {
    State(Bucket(rate, Max(burst, MINIMUM_BURST), Max(burst, MINIMUM_BURST) as real, now, [], {}), map[], now, [], {}, [], 0)
  }

  predicate Executable(s: State, steps: seq<Step>)
    decreases |steps|
  {
    steps != [] ==> Enabled(s, steps[0]) && Executable(Do(s, steps[0]), steps[1..])
  }

  function Run(s: State, steps: seq<Step>): State
    requires Executable(s, steps)
    decreases |steps|
  {
    if steps == [] then s else Run(Do(s, steps[0]), steps[1..])
  }

  /** The waiters of `order` that were not cancelled, in order. */
  function Remaining(order: seq<Waiter>, cancelled: set<Waiter>): seq<Waiter>
  {
    if order == [] then []
    else
      var rest := Remaining(order[..|order| - 1], cancelled);
      if order[|order| - 1] in cancelled then rest else rest + [order[|order| - 1]]
  }

  ghost predicate Inv(s: State)
  {
    && BucketOk(s.bucket) && s.bucket.last <= s.clock
    && (forall w :: w in s.waiting <==> w in s.bucket.queue)
    && (forall w :: w in s.waiting ==> s.waiting[w].bytes > 0 && (s.waiting[w].hasTurn ==> w in s.bucket.turns))
    && (forall w :: w in s.bucket.turns ==> w in s.enqueued)
    && (forall w :: w in s.cancelled ==> w in s.enqueued)
    && Remaining(s.enqueued, s.cancelled) == s.granted + s.bucket.queue
    && Distinct(s.granted + s.bucket.queue)
  }

  // ---------- First in, first out ----------

  lemma {:induction false} RemainingMembers(order: seq<Waiter>, cancelled: set<Waiter>)
    ensures forall w :: w in Remaining(order, cancelled) <==> w in order && w !in cancelled
  {
    if order != [] { RemainingMembers(order[..|order| - 1], cancelled); }
  }

  lemma RemainingSnoc(order: seq<Waiter>, w: Waiter, cancelled: set<Waiter>)
    requires w !in cancelled
    ensures Remaining(order + [w], cancelled) == Remaining(order, cancelled) + [w]
  {
    assert (order + [w])[..|order|] == order;
  }

  function Excluding(s: seq<Waiter>, w: Waiter): seq<Waiter>
  {
    if s == [] then [] else if s[|s| - 1] == w then Excluding(s[..|s| - 1], w) else Excluding(s[..|s| - 1], w) + [s[|s| - 1]]
  }

  lemma {:induction false} RemainingCancel(order: seq<Waiter>, cancelled: set<Waiter>, w: Waiter)
    ensures Remaining(order, cancelled + {w}) == Excluding(Remaining(order, cancelled), w)
  {
    if order != [] {
      var last := |order| - 1;
      RemainingCancel(order[..last], cancelled, w);
      var rest := Remaining(order[..last], cancelled);
      if order[last] !in cancelled { assert (rest + [order[last]])[..|rest|] == rest; }
    }
  }

  lemma {:induction false} ExcludingAbsent(s: seq<Waiter>, w: Waiter)
    requires w !in s
    ensures Excluding(s, w) == s
  {
    if s != [] {
      ExcludingAbsent(s[..|s| - 1], w);
      assert s == s[..|s| - 1] + [s[|s| - 1]];
    }
  }

  lemma {:induction false} ExcludingSplit(a: seq<Waiter>, w: Waiter, b: seq<Waiter>)
    requires w !in a && w !in b
    ensures Excluding(a + [w] + b, w) == a + b
  {
    var s := a + [w] + b;
    if b == [] {
      assert s[..|s| - 1] == a && s[|s| - 1] == w && a + b == a;
      ExcludingAbsent(a, w);
    } else {
      var b' := b[..|b| - 1];
      assert s[..|s| - 1] == a + [w] + b' && s[|s| - 1] == b[|b| - 1];
      ExcludingSplit(a, w, b');
      assert a + b == a + b' + [b[|b| - 1]];
    }
  }

  // ---------- Every step keeps the invariant ----------

  lemma EnterKeeps(s: State, w: Waiter, bytes: int)
    requires Inv(s) && Enabled(s, Enter(w, bytes))
    ensures Inv(Do(s, Enter(w, bytes)))
  {
    RemainingMembers(s.enqueued, s.cancelled);
    RemainingSnoc(s.enqueued, w, s.cancelled);
    var s' := Do(s, Enter(w, bytes));
    assert s.granted + s'.bucket.queue == s.granted + s.bucket.queue + [w];
    assert w !in s.granted + s.bucket.queue;
  }

  /** The part of the invariant the rate argument needs. */
  predicate TokensOk(b: Bucket)
  {
    b.rate > 0 && 0.0 <= b.tokens <= b.burst as real
  }

  lemma RefillOk(b: Bucket, now: real)
    requires TokensOk(b)
    ensures TokensOk(Refill(b, now)) && Refill(b, now).queue == b.queue && Refill(b, now).turns == b.turns
    ensures Refill(b, now).burst == b.burst && Refill(b, now).last >= b.last
    ensures now >= b.last ==> Refill(b, now).last == now
  {
    if now > b.last { assert (now - b.last) * b.rate as real >= 0.0; }
  }

  predicate QueueOk(queue: seq<Waiter>, turns: set<Waiter>)
  {
    (forall i, j :: 0 <= i < j < |queue| ==> queue[i] != queue[j]) &&
    (forall i :: 0 <= i < |queue| ==> (queue[i] in turns <==> i == 0))
  }

  lemma BucketParts(b: Bucket)
    ensures BucketOk(b) <==> TokensOk(b) && QueueOk(b.queue, b.turns) && b.burst >= MINIMUM_BURST
  {
  }

  /** Only the waiter at the head can be attempting. */
  lemma HolderIsHead(s: State, w: Waiter)
    requires Inv(s) && w in s.waiting && s.waiting[w].hasTurn
    ensures s.bucket.queue != [] && s.bucket.queue[0] == w
  {
    hide Remaining;
    var i :| 0 <= i < |s.bucket.queue| && s.bucket.queue[i] == w;
  }

  lemma PopKeeps(queue: seq<Waiter>, turns: set<Waiter>)
    requires QueueOk(queue, turns) && queue != []
    ensures QueueOk(queue[1..], if queue[1..] == [] then turns else turns + {queue[1..][0]})
  {
  }

  /** A successful attempt by the head takes its bytes and passes the turn on. */
  lemma AttemptFacts(b: Bucket, w: Waiter, bytes: int, now: real)
    requires BucketOk(b) && b.queue != [] && b.queue[0] == w && bytes > 0 && b.last <= now
    ensures var (b', taken) := Attempt(b, w, bytes, now);
      && BucketOk(b') && b'.last == now && b'.rate == b.rate && b'.burst == b.burst
      && (taken ==> b'.queue == b.queue[1..] && b'.turns == (if |b.queue| > 1 then b.turns + {b.queue[1]} else b.turns)
                    && b'.tokens == Refill(b, now).tokens - bytes as real)
      && (!taken ==> b'.queue == b.queue && b'.turns == b.turns && b'.tokens == Refill(b, now).tokens)
  {
    hide BucketOk, QueueOk, TokensOk, Refill;
    BucketParts(b);
    RefillOk(b, now);
    var (b', taken) := Attempt(b, w, bytes, now);
    if taken { PopKeeps(b.queue, b.turns); }
    TokensParts(b', b.rate, b.burst);
    TokensParts(Refill(b, now), b.rate, b.burst);
    RefillRate(b, now);
    BucketParts(b');
  }

  lemma RefillRate(b: Bucket, now: real)
    ensures Refill(b, now).rate == b.rate && Refill(b, now).burst == b.burst
  {
  }

  lemma TokensParts(b: Bucket, rate: int, burst: int)
    ensures b.rate == rate && b.burst == burst ==> (TokensOk(b) <==> rate > 0 && 0.0 <= b.tokens <= burst as real)
  {
  }

  lemma TryKeeps(s: State, w: Waiter, now: real)
    requires Inv(s) && Enabled(s, Try(w, now))
    ensures Inv(Do(s, Try(w, now)))
  {
    hide BucketOk, Attempt, Remaining;
    HolderIsHead(s, w);
    AttemptFacts(s.bucket, w, s.waiting[w].bytes, now);
    var s' := Do(s, Try(w, now));
    if Attempt(s.bucket, w, s.waiting[w].bytes, now).1 {
      assert s.bucket.queue == [w] + s'.bucket.queue;
      assert s'.granted + s'.bucket.queue == s.granted + s.bucket.queue;
      HeadAppearsOnce(s, w);
      QueueEnqueued(s);
    }
  }

  lemma QueueEnqueued(s: State)
    requires Inv(s)
    ensures forall v :: v in s.bucket.queue ==> v in s.enqueued
  {
    hide BucketOk;
    RemainingMembers(s.enqueued, s.cancelled);
    forall v | v in s.bucket.queue ensures v in s.granted + s.bucket.queue {}
  }

  lemma HeadAppearsOnce(s: State, w: Waiter)
    requires Inv(s) && s.bucket.queue != [] && s.bucket.queue[0] == w
    ensures forall v :: v in s.bucket.queue[1..] <==> v in s.bucket.queue && v != w
  {
    hide Remaining;
    QueueDistinct(s.bucket);
    var q := s.bucket.queue;
    forall v | v in q && v != w ensures v in q[1..] {
      var i :| 0 <= i < |q| && q[i] == v;
      assert q[1..][i - 1] == v;
    }
  }

  lemma LeaveMembers(queue: seq<Waiter>, w: Waiter)
    requires w in queue && forall i, j :: 0 <= i < j < |queue| ==> queue[i] != queue[j]
    ensures var i := IndexOf(queue, w);
      i < |queue| && queue == queue[..i] + [w] + queue[i + 1..] &&
      (forall v :: v in queue[..i] + queue[i + 1..] <==> v in queue && v != w)
  {
    var i := IndexOf(queue, w);
    var q := queue[..i] + queue[i + 1..];
    assert forall j :: 0 <= j < |q| ==> q[j] == queue[if j < i then j else j + 1];
    forall v | v in queue && v != w ensures v in q {
      var j :| 0 <= j < |queue| && queue[j] == v;
      assert q[if j < i then j else j - 1] == v;
    }
  }

  lemma LeaveQueueOk(queue: seq<Waiter>, turns: set<Waiter>, i: nat)
    requires QueueOk(queue, turns) && i < |queue|
    ensures var q := queue[..i] + queue[i + 1..];
      QueueOk(q, if i == 0 && q != [] then turns + {q[0]} else turns)
  {
    var q := queue[..i] + queue[i + 1..];
    assert forall j :: 0 <= j < |q| ==> q[j] == queue[if j < i then j else j + 1];
  }

  lemma LeaveFacts(b: Bucket, w: Waiter)
    requires BucketOk(b) && w in b.queue
    ensures var i := IndexOf(b.queue, w);
      && i < |b.queue|
      && Leave(b, w).queue == b.queue[..i] + b.queue[i + 1..]
      && Leave(b, w).turns == (if i == 0 && |b.queue| > 1 then b.turns + {b.queue[1]} else b.turns)
      && BucketOk(Leave(b, w))
      && Leave(b, w).tokens == b.tokens && Leave(b, w).last == b.last && Leave(b, w).rate == b.rate && Leave(b, w).burst == b.burst
  {
    hide BucketOk, QueueOk;
    var i := IndexOf(b.queue, w);
    BucketParts(b);
    LeaveQueueOk(b.queue, b.turns, i);
    BucketParts(Leave(b, w));
  }

  lemma DropOne(granted: seq<Waiter>, queue: seq<Waiter>, i: nat)
    requires i < |queue| && Distinct(granted + queue)
    ensures Excluding(granted + queue, queue[i]) == granted + (queue[..i] + queue[i + 1..])
    ensures Distinct(granted + (queue[..i] + queue[i + 1..]))
  {
    hide Excluding;
    var all := granted + queue;
    var before, after := granted + queue[..i], queue[i + 1..];
    assert all == before + [queue[i]] + after;
    assert all[|before|] == queue[i];
    assert forall j :: 0 <= j < |before| ==> before[j] == all[j];
    assert forall j :: 0 <= j < |after| ==> after[j] == all[|before| + 1 + j];
    ExcludingSplit(before, queue[i], after);
    assert granted + (queue[..i] + queue[i + 1..]) == before + after;
    assert forall j :: 0 <= j < |before + after| ==> (before + after)[j] == all[if j < |before| then j else j + 1];
  }

  lemma GiveUpOrder(s: State, w: Waiter)
    requires Inv(s) && w in s.waiting
    ensures Remaining(s.enqueued, s.cancelled + {w}) == s.granted + Leave(s.bucket, w).queue
    ensures Distinct(s.granted + Leave(s.bucket, w).queue)
  {
    hide BucketOk, Leave, Remaining, Excluding, Distinct;
    LeaveFacts(s.bucket, w);
    RemainingCancel(s.enqueued, s.cancelled, w);
    DropOne(s.granted, s.bucket.queue, IndexOf(s.bucket.queue, w));
  }

  lemma GiveUpKeeps(s: State, w: Waiter)
    requires Inv(s) && Enabled(s, GiveUp(w))
    ensures Inv(Do(s, GiveUp(w)))
  {
    hide BucketOk, Leave, Remaining, QueueOk, TokensOk, IndexOf, Distinct;
    GiveUpOrder(s, w);
    QueueEnqueued(s);
    LeaveEffect(s.bucket, w);
  }

  lemma LeaveEffect(b: Bucket, w: Waiter)
    requires BucketOk(b) && w in b.queue
    ensures var b' := Leave(b, w);
      && BucketOk(b') && b'.last == b.last
      && (forall v :: v in b'.queue <==> v in b.queue && v != w)
      && (forall v :: v in b.turns ==> v in b'.turns)
      && (forall v :: v in b'.turns ==> v in b.turns || v in b.queue)
  {
    hide BucketOk, Leave, IndexOf;
    QueueDistinct(b);
    LeaveFacts(b, w);
    LeaveMembers(b.queue, w);
    SecondInQueue(b.queue);
  }

  lemma SecondInQueue(queue: seq<Waiter>)
    ensures |queue| > 1 ==> queue[1] in queue
  {
  }

  lemma QueueDistinct(b: Bucket)
    requires BucketOk(b)
    ensures forall i, j :: 0 <= i < j < |b.queue| ==> b.queue[i] != b.queue[j]
    ensures |b.queue| > 1 ==> b.queue[1] !in b.turns
  {
  }

  /** In every interleaving of enqueue, grant and cancel: exactly the head of
      the queue holds an open turn, tokens stay within zero and burst, and the
      grants so far followed by the queue are the uncancelled waiters in order. */
  lemma StepKeeps(s: State, step: Step)
    requires Inv(s) && Enabled(s, step)
    ensures Inv(Do(s, step))
  {
    match step
    case Enter(w, bytes) => EnterKeeps(s, w, bytes);
    case TakeTurn(w) =>
    case Try(w, now) => TryKeeps(s, w, now);
    case GiveUp(w) => GiveUpKeeps(s, w);
  }

  lemma {:induction false} RunKeeps(s: State, steps: seq<Step>)
    requires Inv(s) && Executable(s, steps)
    ensures Inv(Run(s, steps))
    decreases |steps|
  {
    if steps != [] {
      StepKeeps(s, steps[0]);
      RunKeeps(Do(s, steps[0]), steps[1..]);
    }
  }

  /** First in, first out: over any run of a fresh limiter, grants are a prefix of the uncancelled waiters in enqueue order. */
  lemma GrantsFollowEnqueueOrder(rate: int, burst: int, now: real, steps: seq<Step>)
    requires rate > 0 && Executable(Start(rate, burst, now), steps)
    ensures var s := Run(Start(rate, burst, now), steps);
      s.granted <= Remaining(s.enqueued, s.cancelled) && Remaining(s.enqueued, s.cancelled)[|s.granted|..] == s.bucket.queue
    ensures var s := Run(Start(rate, burst, now), steps);
      forall i :: 0 <= i < |s.bucket.queue| ==> (s.bucket.queue[i] in s.bucket.turns <==> i == 0)
  {
    RunKeeps(Start(rate, burst, now), steps);
  }

  // ---------- Turns ----------

  /** The waiter whose turn channel a step closes, if any. */
  function Closes(s: State, step: Step): Option<Waiter>
    requires Enabled(s, step)
  {
    var q := s.bucket.queue;
    match step
    case Enter(w, _) => if q == [] then Some(w) else None
    case TakeTurn(_) => None
    case Try(w, now) =>
      if Attempt(s.bucket, w, s.waiting[w].bytes, now).1 && |q| > 1 && q[0] == w then Some(q[1]) else None
    case GiveUp(w) => if |q| > 1 && q[0] == w then Some(q[1]) else None
  }

  /** No turn is closed twice, and none is lost: when a head leaves, granted or
      cancelled, the next waiter's turn is closed in the same step. */
  lemma TurnsPassOnce(s: State, step: Step)
    requires Inv(s) && Enabled(s, step)
    ensures Closes(s, step).Some? ==> Closes(s, step).value !in s.bucket.turns
    ensures Do(s, step).bucket.turns == s.bucket.turns + (if Closes(s, step).Some? then {Closes(s, step).value} else {})
  {
    hide BucketOk, Attempt, Leave, Remaining;
    QueueDistinct(s.bucket);
    match step
    case Enter(w, bytes) =>
    case TakeTurn(w) =>
    case Try(w, now) =>
      HolderIsHead(s, w);
      AttemptFacts(s.bucket, w, s.waiting[w].bytes, now);
    case GiveUp(w) =>
      LeaveFacts(s.bucket, w);
      assert IndexOf(s.bucket.queue, w) == 0 <==> s.bucket.queue[0] == w;
  }

  // ---------- Rate ----------

  /** Tokens a head could take at time `t`. */
  function Available(b: Bucket, t: real): real
  {
    Refill(b, t).tokens
  }

  lemma AvailableGrows(b: Bucket, t: real, u: real)
    requires TokensOk(b) && b.last <= t <= u
    ensures Available(b, u) <= Available(b, t) + (u - t) * b.rate as real
    ensures 0.0 <= Available(b, t) <= b.burst as real
  {
    RefillOk(b, t);
    var r := b.rate as real;
    assert (u - b.last) * r == (t - b.last) * r + (u - t) * r;
    assert (u - t) * r >= 0.0;
  }

  lemma InvTokens(s: State)
    requires Inv(s)
    ensures TokensOk(s.bucket) && s.bucket.last <= s.clock
  {
  }

  lemma SameTokensAvailable(b: Bucket, b': Bucket, t: real)
    requires b'.tokens == b.tokens && b'.last == b.last && b'.rate == b.rate && b'.burst == b.burst
    ensures Available(b', t) == Available(b, t)
  {
  }

  lemma JustRefilled(b: Bucket, t: real)
    requires b.last == t
    ensures Available(b, t) == b.tokens
  {
  }

  /** The later of the last attempt and the opening of a window at `t`. */
  function Since(s: State, t: real): real { if s.clock > t then s.clock else t }

  /** Every attempt of these steps is made at `t` or later. */
  predicate NotBefore(steps: seq<Step>, t: real)
  {
    forall i :: 0 <= i < |steps| && steps[i].Try? ==> steps[i].now >= t
  }

  /** From the opening of a window on, bytes granted plus tokens a head could take never outgrow the rate. */
  lemma StepWithinRate(s: State, step: Step, t: real)
    requires Inv(s) && Enabled(s, step) && (step.Try? ==> step.now >= t)
    ensures var s' := Do(s, step);
      && Since(s', t) >= Since(s, t) && s'.bucket.rate == s.bucket.rate && s'.bucket.burst == s.bucket.burst
      && s'.total as real + Available(s'.bucket, Since(s', t))
           <= s.total as real + Available(s.bucket, Since(s, t)) + (Since(s', t) - Since(s, t)) * s.bucket.rate as real
  {
    hide BucketOk, Attempt, Leave, Remaining, Available, TokensOk, Refill;
    InvTokens(s);
    var s' := Do(s, step);
    match step
    case Enter(w, bytes) => SameTokensAvailable(s.bucket, s'.bucket, Since(s, t));
    case TakeTurn(w) =>
    case Try(w, now) =>
      HolderIsHead(s, w);
      AttemptFacts(s.bucket, w, s.waiting[w].bytes, now);
      AvailableGrows(s.bucket, Since(s, t), now);
      JustRefilled(s'.bucket, now);
      AvailableIs(s.bucket, now);
    case GiveUp(w) =>
      LeaveFacts(s.bucket, w);
      SameTokensAvailable(s.bucket, s'.bucket, Since(s, t));
  }

  lemma AvailableIs(b: Bucket, t: real)
    ensures Available(b, t) == Refill(b, t).tokens
  {
  }

  lemma {:induction false} RunWithinRate(s: State, steps: seq<Step>, t: real)
    requires Inv(s) && Executable(s, steps) && NotBefore(steps, t)
    ensures var s' := Run(s, steps);
      s'.total as real + Available(s'.bucket, Since(s', t))
        <= s.total as real + Available(s.bucket, Since(s, t)) + (Since(s', t) - Since(s, t)) * s.bucket.rate as real
    ensures Run(s, steps).bucket.rate == s.bucket.rate && Since(Run(s, steps), t) >= Since(s, t)
    decreases |steps|
  {
    hide Inv, Available, Do, Enabled, Since;
    if steps != [] {
      var s1 := Do(s, steps[0]);
      StepKeeps(s, steps[0]);
      StepWithinRate(s, steps[0], t);
      RunWithinRate(s1, steps[1..], t);
      Distribute(Since(Run(s1, steps[1..]), t), Since(s1, t), Since(s, t), s.bucket.rate as real);
    }
  }

  lemma Distribute(c: real, b: real, a: real, r: real)
    ensures (c - b) * r + (b - a) * r == (c - a) * r
  {
  }

  /** Over any time window of any run, opening and closing whenever it likes,
      the bytes granted are at most burst plus rate times the window's length. */
  lemma WindowBound(rate: int, burst: int, now: real, before: seq<Step>, window: seq<Step>, t1: real, t2: real)
    requires rate > 0 && Executable(Start(rate, burst, now), before)
    requires Executable(Run(Start(rate, burst, now), before), window)
    requires t1 >= Run(Start(rate, burst, now), before).clock && NotBefore(window, t1)
    requires t2 >= t1 && t2 >= Run(Run(Start(rate, burst, now), before), window).clock
    ensures var s := Run(Start(rate, burst, now), before);
      var s' := Run(s, window);
      (s'.total - s.total) as real <= s.bucket.burst as real + (t2 - t1) * s.bucket.rate as real
  {
    hide Inv, Available, Do, Enabled, TokensOk, Start, NotBefore;
    StartOk(rate, burst, now);
    var s := Run(Start(rate, burst, now), before);
    RunKeeps(Start(rate, burst, now), before);
    RunKeeps(s, window);
    RunWithinRate(s, window, t1);
    InvTokens(s);
    AvailableGrows(s.bucket, t1, t1);
    var s' := Run(s, window);
    InvTokens(s');
    AvailableGrows(s'.bucket, Since(s', t1), Since(s', t1));
    RatePositive(s);
    Longer(t2 - t1, Since(s', t1) - t1, s.bucket.rate as real);
  }

  lemma RatePositive(s: State)
    requires Inv(s)
    ensures s.bucket.rate > 0
  {
  }

  lemma Longer(x: real, y: real, r: real)
    requires x >= y && r > 0.0
    ensures x * r >= y * r
  {
  }

  lemma StartOk(rate: int, burst: int, now: real)
    requires rate > 0
    ensures Inv(Start(rate, burst, now))
  {
  }

  // ---------- Progress ----------

  lemma PauseCovers(b: Bucket, bytes: int)
    requires b.rate > 0 && b.tokens < bytes as real
    ensures Pause(b, bytes) >= 0.001
    ensures b.tokens + Pause(b, bytes) * b.rate as real >= bytes as real - b.rate as real / 1_000_000_000.0
  {
    hide WholeNanos;
    var seconds := (bytes as real - b.tokens) / b.rate as real;
    TruncatedBelow(seconds);
    CoverArithmetic(b.tokens, bytes as real, seconds, Pause(b, bytes), b.rate as real);
  }

  lemma TruncatedBelow(seconds: real)
    ensures WholeNanos(seconds) >= seconds - 0.000_000_001
  {
    var nanos := seconds * 1_000_000_000.0;
    assert nanos - 1.0 <= nanos.Floor as real;
  }

  lemma CoverArithmetic(held: real, bytes: real, seconds: real, pause: real, r: real)
    requires r > 0.0 && seconds == (bytes - held) / r && pause >= seconds - 0.000_000_001
    ensures held + pause * r >= bytes - r / 1_000_000_000.0
  {
    DivideBack(bytes - held, r);
    ScaleUp(seconds - 0.000_000_001, pause, r);
  }

  lemma ScaleUp(x: real, y: real, r: real)
    requires x <= y && r > 0.0
    ensures x * r <= y * r
    ensures x * r == (x + 0.000_000_001) * r - r / 1_000_000_000.0
  {
  }

  lemma DivideBack(x: real, r: real)
    requires r > 0.0
    ensures x / r * r == x
  {
  }

  lemma WaitingEarns(b: Bucket, pause: real, now: real)
    requires TokensOk(b) && pause > 0.0 && now >= b.last + pause
    ensures Refill(b, now).tokens >= MinReal(b.burst as real, b.tokens + pause * b.rate as real)
  {
    assert (now - b.last) * b.rate as real >= pause * b.rate as real;
  }

  /** Rounding to nanoseconds can cost one more pause, never two. */
  lemma TwoPausesSuffice(b: Bucket, bytes: int, t1: real, t2: real)
    requires TokensOk(b) && 0 < bytes <= b.burst && b.tokens < bytes as real
    requires t1 >= b.last + Pause(b, bytes)
    requires Refill(b, t1).tokens < bytes as real ==> t2 >= t1 + Pause(Refill(b, t1), bytes)
    ensures Refill(b, t1).tokens < bytes as real ==> Refill(Refill(b, t1), t2).tokens >= bytes as real
  {
    hide TokensOk, Pause, Refill;
    var b1 := Refill(b, t1);
    RefillOk(b, t1);
    RefillRate(b, t1);
    TokensParts(b, b.rate, b.burst);
    PauseCovers(b, bytes);
    WaitingEarns(b, Pause(b, bytes), t1);
    if b1.tokens < bytes as real {
      PauseCovers(b1, bytes);
      WaitingEarns(b1, Pause(b1, bytes), t2);
      SecondPause(b1.tokens, bytes as real, Pause(b1, bytes), b.rate as real);
    }
  }

  lemma SecondPause(held: real, bytes: real, pause: real, r: real)
    requires r > 0.0 && pause >= 0.001 && held >= bytes - r / 1_000_000_000.0
    ensures held + pause * r >= bytes
  {
    Longer(pause, 0.001, r);
  }

  predicate Concerns(step: Step, w: Waiter) { step.w == w }

  /** While `w` holds the turn, no other waiter's step touches the tokens or the head. */
  predicate Holds(s: State, w: Waiter, bytes: int)
  {
    w in s.waiting && s.waiting[w] == Waiting(bytes, true)
  }

  predicate SameTokens(s: State, s': State)
  {
    s'.bucket.tokens == s.bucket.tokens && s'.bucket.last == s.bucket.last && s'.bucket.rate == s.bucket.rate &&
    s'.bucket.burst == s.bucket.burst && s'.clock == s.clock
  }

  lemma OnlyHeadDraws(s: State, step: Step, w: Waiter, bytes: int)
    requires Inv(s) && Enabled(s, step) && !Concerns(step, w) && Holds(s, w, bytes)
    ensures Holds(Do(s, step), w, bytes) && SameTokens(s, Do(s, step)) && Do(s, step).granted == s.granted
  {
    hide BucketOk, Leave, Remaining, Attempt;
    HolderIsHead(s, w);
    match step
    case Enter(v, _) =>
    case TakeTurn(v) =>
    case Try(v, _) => HolderIsHead(s, v);
    case GiveUp(v) => LeaveFacts(s.bucket, v);
  }

  predicate NoneConcerns(steps: seq<Step>, w: Waiter)
  {
    forall i :: 0 <= i < |steps| ==> !Concerns(steps[i], w)
  }

  lemma {:induction false} OthersLeaveHeadAlone(s: State, steps: seq<Step>, w: Waiter, bytes: int)
    requires Inv(s) && Executable(s, steps) && NoneConcerns(steps, w) && Holds(s, w, bytes)
    ensures var s' := Run(s, steps);
      Inv(s') && Holds(s', w, bytes) && SameTokens(s, s') && s'.granted == s.granted
    decreases |steps|
  {
    hide Inv, Do, Enabled;
    if steps != [] {
      OnlyHeadDraws(s, steps[0], w, bytes);
      StepKeeps(s, steps[0]);
      OthersLeaveHeadAlone(Do(s, steps[0]), steps[1..], w, bytes);
    }
  }

  /** A head request that fits the burst is granted after at most two computed
      pauses, whatever the other waiters do meanwhile. */
  lemma {:induction false} HeadIsGranted(s: State, w: Waiter, bytes: int, t0: real, others1: seq<Step>, t1: real, others2: seq<Step>, t2: real)
    requires Inv(s) && Holds(s, w, bytes) && bytes <= s.bucket.burst && t0 >= s.clock
    requires var s0 := Do(s, Try(w, t0));
      && w in s0.waiting
      && Executable(s0, others1) && NoneConcerns(others1, w)
      && t1 >= t0 + Pause(s0.bucket, bytes)
    requires var s1 := Run(Do(s, Try(w, t0)), others1);
      t1 >= s1.clock && Holds(s1, w, bytes) &&
      var s2 := Do(s1, Try(w, t1));
      w in s2.waiting ==>
        Executable(s2, others2) && NoneConcerns(others2, w) && s2.bucket.rate > 0 && t2 >= t1 + Pause(s2.bucket, bytes) &&
        t2 >= Run(s2, others2).clock && Holds(Run(s2, others2), w, bytes)
    ensures var s2 := Do(Run(Do(s, Try(w, t0)), others1), Try(w, t1));
      w in s2.granted || (w in s2.waiting && w in Do(Run(s2, others2), Try(w, t2)).granted)
  {
    hide BucketOk, Attempt, Remaining, Leave, Pause;
    var s0 := Do(s, Try(w, t0));
    TryKeeps(s, w, t0);
    TryOutcome(s, w, bytes, t0);
    OthersLeaveHeadAlone(s0, others1, w, bytes);
    var s1 := Run(s0, others1);
    var s2 := Do(s1, Try(w, t1));
    TryKeeps(s1, w, t1);
    TryOutcome(s1, w, bytes, t1);
    InvTokens(s0);
    if w in s2.waiting {
      OthersLeaveHeadAlone(s2, others2, w, bytes);
      var s3 := Run(s2, others2);
      TryOutcome(s3, w, bytes, t2);
      SameRefill(s0.bucket, s1.bucket, t1);
      SameRefill(s2.bucket, s3.bucket, t2);
      SameRefill(Refill(s0.bucket, t1), s2.bucket, t2);
      SamePause(Refill(s0.bucket, t1), s2.bucket, bytes);
      RefillRate(s0.bucket, t1);
      TwoPausesSuffice(s0.bucket, bytes, t1, t2);
    }
  }

  /** What one attempt by the holder of the turn does. */
  lemma TryOutcome(s: State, w: Waiter, bytes: int, now: real)
    requires Inv(s) && Holds(s, w, bytes) && now >= s.clock
    ensures var s' := Do(s, Try(w, now));
      if Refill(s.bucket, now).tokens >= bytes as real then w in s'.granted && w !in s'.waiting
      else Holds(s', w, bytes) && s'.bucket == Refill(s.bucket, now) && s'.bucket.last == now && s'.clock == now
  {
    hide BucketOk, Remaining;
    InvTokens(s);
    RefillOk(s.bucket, now);
  }

  lemma SameRefill(b: Bucket, b': Bucket, t: real)
    requires b'.tokens == b.tokens && b'.last == b.last && b'.rate == b.rate && b'.burst == b.burst
    ensures Refill(b', t).tokens == Refill(b, t).tokens && Refill(b', t).last == Refill(b, t).last
  {
  }

  lemma SamePause(b: Bucket, b': Bucket, bytes: int)
    requires b'.tokens == b.tokens && b'.rate == b.rate && b.rate > 0
    ensures Pause(b', bytes) == Pause(b, bytes)
  {
  }
}

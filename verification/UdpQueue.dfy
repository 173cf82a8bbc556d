/** The upload queue of one UDP session: bytes are reserved before a packet
    exists, travel with it, and are given back on every way out. */
module UdpQueue {
  import opened Wrappers

  const MAX_DATAGRAM: nat := 64 * 1024
  const QUEUE_CAPACITY: nat := 64
  const QUEUE_MAX_BYTES: nat := MAX_DATAGRAM

  // ---------- Packet size classes ----------

  const CLASS_SIZES: seq<nat> := [256, 1024, 4096, 16 * 1024, MAX_DATAGRAM]

  /** A pooled buffer of `cap` bytes holding `len` of them; class -1 is not pooled. */
  datatype Packet = Packet(len: nat, cap: nat, poolClass: int, accounted: nat)

  /** The bytes reserved for a payload before its packet is acquired. */
  function Capacity(size: nat): nat
  {
    if size <= 256 then 256
    else if size <= 1024 then 1024
    else if size <= 4096 then 4096
    else if size <= 16 * 1024 then 16 * 1024
    else if size <= MAX_DATAGRAM then MAX_DATAGRAM
    else size
  }

  function PoolClass(size: nat): (c: int)
    ensures -1 <= c < |CLASS_SIZES|
    ensures c >= 0 ==> size <= CLASS_SIZES[c] && (c > 0 ==> CLASS_SIZES[c - 1] < size)
    ensures c == -1 <==> size > MAX_DATAGRAM
  {
    if size > MAX_DATAGRAM then -1
    else if size <= 256 then 0
    else if size <= 1024 then 1
    else if size <= 4096 then 2
    else if size <= 16 * 1024 then 3
    else 4
  }

  class PacketPools {
    var pools: seq<seq<Packet>>

    predicate Valid()
      reads this
    {
      |pools| == |CLASS_SIZES| &&
      forall c, i :: 0 <= c < |pools| && 0 <= i < |pools[c]| ==>
        pools[c][i].cap == CLASS_SIZES[c] && pools[c][i].len == pools[c][i].cap && pools[c][i].poolClass == c
    }

    constructor ()
      ensures Valid()
    {
      pools := [[], [], [], [], []];
    }

    /** The packet charges exactly what was reserved for its payload, whether its
        buffer is new or comes back from the pool (a pool may also forget buffers). */
    method Acquire(size: nat, reuse: bool) returns (packet: Packet)
      requires Valid()
      modifies this
      ensures Valid()
      ensures packet.len == size && packet.cap == packet.accounted == Capacity(size) && packet.poolClass == PoolClass(size)
    {
      var c := PoolClass(size);
      if c < 0 { return Packet(size, size, -1, size); }
      if reuse && pools[c] != [] {
        packet := pools[c][0];
        pools := pools[c := pools[c][1..]];
      } else {
        packet := Packet(CLASS_SIZES[c], CLASS_SIZES[c], c, 0);
      }
      packet := packet.(len := size);
      packet := packet.(accounted := packet.cap);
    }

    method Put(packet: Packet)
      requires Valid()
      requires 0 <= packet.poolClass < |CLASS_SIZES| ==> packet.cap == CLASS_SIZES[packet.poolClass]
      modifies this
      ensures Valid()
    {
      if packet.poolClass < 0 || packet.poolClass >= |CLASS_SIZES| { return; }
      var c := packet.poolClass;
      pools := pools[c := pools[c] + [packet.(len := packet.cap)]];
    }
  }

  // ---------- One session, interleaved ----------

  /** How the packet the upload loop held was disposed of. */
  datatype Fate = LimiterStopped | QuotaRejected | QuotaStateLost | Forwarded | WriteFailed | Drained

  predicate EndsLoop(f: Fate) { f == LimiterStopped || f == QuotaStateLost || f == WriteFailed }

  /** `reserving` lists the payloads whose bytes are reserved but whose packets are not queued yet.
      `accepted`, `taken` (with their `fates`) are history. */
  datatype State = State(
    queuedBytes: int,
    reserving: seq<nat>,
    queue: seq<Packet>,
    held: Option<Packet>,
    cancelled: bool,
    exited: bool,
    dropped: nat,
    uploaded: nat,
    accepted: seq<Packet>,
    taken: seq<Packet>,
    fates: seq<Fate>)

  datatype Step =
    | Reserve(size: nat, seen: int)
    | Push(i: nat)
    | Abort(i: nat)
    | DropFull(i: nat)
    | Take
    | Finish(fate: Fate)
    | LoopStops
    | Drain
    | Cancel

  predicate Enabled(s: State, step: Step)
  {
    match step
    case Reserve(_, _) => true
    case Push(i) => i < |s.reserving| && |s.queue| < QUEUE_CAPACITY
    case Abort(i) => i < |s.reserving| && s.cancelled
    case DropFull(i) => i < |s.reserving| && |s.queue| >= QUEUE_CAPACITY && !s.cancelled
    case Take => s.held.None? && !s.exited && s.queue != []
    case Finish(fate) => s.held.Some? && fate != Drained
    case LoopStops => s.held.None? && s.cancelled
    case Drain => s.exited && s.queue != []
    case Cancel => true
  }

  function PacketFor(size: nat): Packet { Packet(size, Capacity(size), PoolClass(size), Capacity(size)) }

  function RemoveAt<T>(s: seq<T>, i: nat): seq<T>
    requires i < |s|
  {
    s[..i] + s[i + 1..]
  }

  /** `seen` is the counter value the reserver read; the swap only takes if it is still current. */
  function Do(s: State, step: Step): State
    requires Enabled(s, step)
  {
    match step
    case Reserve(size, seen) =>
      if seen + Capacity(size) > QUEUE_MAX_BYTES then s.(dropped := s.dropped + 1)
      else if seen != s.queuedBytes then s
      else s.(queuedBytes := seen + Capacity(size), reserving := s.reserving + [size])
    case Push(i) =>
      var packet := PacketFor(s.reserving[i]);
      s.(reserving := RemoveAt(s.reserving, i), queue := s.queue + [packet], accepted := s.accepted + [packet])
    case Abort(i) =>
      s.(reserving := RemoveAt(s.reserving, i), queuedBytes := s.queuedBytes - PacketFor(s.reserving[i]).accounted)
    case DropFull(i) =>
      s.(reserving := RemoveAt(s.reserving, i), queuedBytes := s.queuedBytes - PacketFor(s.reserving[i]).accounted,
         dropped := s.dropped + 1)
    case Take => s.(queue := s.queue[1..], held := Some(s.queue[0]), taken := s.taken + [s.queue[0]])
    case Finish(fate) =>
      s.(queuedBytes := s.queuedBytes - s.held.value.accounted, held := None, fates := s.fates + [fate],
         uploaded := s.uploaded + (if fate == Forwarded then s.held.value.len else 0),
         exited := s.exited || EndsLoop(fate))
    case LoopStops => s.(exited := true)
    case Drain =>
      s.(queuedBytes := s.queuedBytes - s.queue[0].accounted, queue := s.queue[1..],
         taken := s.taken + [s.queue[0]], fates := s.fates + [Drained])
    case Cancel => s.(cancelled := true)
  }

  // ---------- The account ----------

  function ReservedBytes(sizes: seq<nat>): nat { if sizes == [] then 0 else Capacity(sizes[0]) + ReservedBytes(sizes[1..]) }

  function PacketBytes(packets: seq<Packet>): nat { if packets == [] then 0 else packets[0].accounted + PacketBytes(packets[1..]) }

  function HeldBytes(held: Option<Packet>): nat { if held.Some? then held.value.accounted else 0 }

  /** The packets that reached the target, in the order they did. */
  function Delivered(taken: seq<Packet>, fates: seq<Fate>): seq<Packet>
    requires |fates| <= |taken|
  {
    if fates == [] then []
    else Delivered(taken, fates[..|fates| - 1]) + if fates[|fates| - 1] == Forwarded then [taken[|fates| - 1]] else []
  }

  function Lengths(packets: seq<Packet>): nat
  {
    if packets == [] then 0 else Lengths(packets[..|packets| - 1]) + packets[|packets| - 1].len
  }

  predicate Charged(s: State)
  {
    s.queuedBytes == PacketBytes(s.queue) + HeldBytes(s.held) + ReservedBytes(s.reserving) <= QUEUE_MAX_BYTES
  }

  /** Every packet charges its class, and none is above the datagram limit. */
  predicate Sized(packets: seq<Packet>) { forall p :: p in packets ==> p == PacketFor(p.len) && p.len <= MAX_DATAGRAM }

  predicate InOrder(s: State)
  {
    && s.accepted == s.taken + s.queue
    && |s.taken| == |s.fates| + (if s.held.Some? then 1 else 0)
    && (s.held.Some? ==> s.held.value == s.taken[|s.taken| - 1])
    && (s.exited ==> s.held.None?)
    && s.uploaded == Lengths(Delivered(s.taken, s.fates))
  }

  predicate Inv(s: State)
  {
    && Charged(s)
    && |s.queue| <= QUEUE_CAPACITY
    && Sized(s.accepted)
    && InOrder(s)
  }

  lemma {:induction false} ReservedAppend(sizes: seq<nat>, size: nat)
    ensures ReservedBytes(sizes + [size]) == ReservedBytes(sizes) + Capacity(size)
  {
    hide Capacity;
    if sizes == [] {
      assert sizes + [size] == [size];
    } else {
      ReservedAppend(sizes[1..], size);
      assert (sizes + [size])[1..] == sizes[1..] + [size];
    }
  }

  lemma {:induction false} ReservedRemoved(sizes: seq<nat>, i: nat)
    requires i < |sizes|
    ensures ReservedBytes(RemoveAt(sizes, i)) == ReservedBytes(sizes) - Capacity(sizes[i])
  {
    hide Capacity;
    if i == 0 {
      assert RemoveAt(sizes, i) == sizes[1..];
    } else {
      ReservedRemoved(sizes[1..], i - 1);
      assert RemoveAt(sizes, i)[1..] == RemoveAt(sizes[1..], i - 1);
    }
  }

  lemma {:induction false} PacketsAppend(packets: seq<Packet>, p: Packet)
    ensures PacketBytes(packets + [p]) == PacketBytes(packets) + p.accounted
  {
    if packets == [] {
      assert packets + [p] == [p];
    } else {
      PacketsAppend(packets[1..], p);
      assert (packets + [p])[1..] == packets[1..] + [p];
    }
  }

  lemma {:induction false} DeliveredIgnoresTheRest(taken: seq<Packet>, more: seq<Packet>, fates: seq<Fate>)
    requires |fates| <= |taken|
    ensures Delivered(taken + more, fates) == Delivered(taken, fates)
  {
    if fates != [] {
      DeliveredIgnoresTheRest(taken, more, fates[..|fates| - 1]);
    }
  }

  lemma LengthsAppend(packets: seq<Packet>, p: Packet)
    ensures Lengths(packets + [p]) == Lengths(packets) + p.len
  {
    assert (packets + [p])[..|packets|] == packets;
  }

  lemma FateAppended(taken: seq<Packet>, fates: seq<Fate>, fate: Fate)
    requires |fates| < |taken|
    ensures Delivered(taken, fates + [fate]) == Delivered(taken, fates) + if fate == Forwarded then [taken[|fates|]] else []
    ensures Lengths(Delivered(taken, fates + [fate])) ==
            Lengths(Delivered(taken, fates)) + if fate == Forwarded then taken[|fates|].len else 0
  {
    hide Lengths;
    assert (fates + [fate])[..|fates|] == fates;
    LengthsAppend(Delivered(taken, fates), taken[|fates|]);
    assert Delivered(taken, fates) + [] == Delivered(taken, fates);
  }

  // ---------- Step by step ----------

  lemma StepKeepsCharge(s: State, step: Step)
    requires Charged(s) && Sized(s.queue) && Enabled(s, step)
    ensures Charged(Do(s, step))
  {
    match step
    case Reserve(size, seen) => ReservedAppend(s.reserving, size);
    case Push(i) =>
      ReservedRemoved(s.reserving, i);
      PacketsAppend(s.queue, PacketFor(s.reserving[i]));
    case Abort(i) => ReservedRemoved(s.reserving, i);
    case DropFull(i) => ReservedRemoved(s.reserving, i);
    case Take =>
    case Finish(_) =>
    case LoopStops =>
    case Drain =>
    case Cancel =>
  }

  lemma StepKeepsOrder(s: State, step: Step)
    requires InOrder(s) && Sized(s.accepted) && Enabled(s, step)
    requires step.Push? ==> s.reserving[step.i] <= MAX_DATAGRAM
    ensures InOrder(Do(s, step)) && Sized(Do(s, step).accepted)
  {
    hide Lengths, Delivered, Capacity, PoolClass;
    match step
    case Push(i) => assert Do(s, step).accepted == s.taken + Do(s, step).queue;
    case Take =>
      assert s.accepted == s.taken + [s.queue[0]] + s.queue[1..];
      DeliveredIgnoresTheRest(s.taken, [s.queue[0]], s.fates);
    case Finish(fate) => FateAppended(s.taken, s.fates, fate);
    case Drain =>
      assert s.accepted == s.taken + [s.queue[0]] + s.queue[1..];
      DeliveredIgnoresTheRest(s.taken, [s.queue[0]], s.fates);
      FateAppended(s.taken + [s.queue[0]], s.fates, Drained);
    case Reserve(_, _) =>
    case Abort(_) =>
    case DropFull(_) =>
    case LoopStops =>
    case Cancel =>
  }

  /** Every interleaving of reservers, the upload loop, cancellation and the
      final drain keeps the account, the order and the upload count. */
  lemma StepKeeps(s: State, step: Step)
    requires Inv(s) && Enabled(s, step)
    ensures Inv(Do(s, step))
  {
    hide Charged, InOrder, Capacity, PoolClass;
    QueueSized(s);
    StepKeepsCharge(s, step);
    if step.Push? { ReservedFits(s, step.i); }
    StepKeepsOrder(s, step);
  }

  lemma CapacityCovers(size: nat)
    ensures Capacity(size) >= size
  {
  }

  lemma ReservedFits(s: State, i: nat)
    requires Charged(s) && i < |s.reserving|
    ensures s.reserving[i] <= MAX_DATAGRAM
  {
    hide Capacity;
    ReservedRemoved(s.reserving, i);
    CapacityCovers(s.reserving[i]);
  }

  lemma QueueSized(s: State)
    requires InOrder(s) && Sized(s.accepted)
    ensures Sized(s.queue)
  {
    forall p | p in s.queue ensures p in s.accepted {}
  }

  predicate RunEnabled(s: State, steps: seq<Step>)
    decreases |steps|
  {
    steps == [] || (Enabled(s, steps[0]) && RunEnabled(Do(s, steps[0]), steps[1..]))
  }

  function Run(s: State, steps: seq<Step>): State
    requires RunEnabled(s, steps)
    decreases |steps|
  {
    if steps == [] then s else Run(Do(s, steps[0]), steps[1..])
  }

  function NewSession(): State { State(0, [], [], None, false, false, 0, 0, [], [], []) }

  lemma NewSessionOk()
    ensures Inv(NewSession())
  {
    hide Charged, Sized, InOrder;
    NewSessionCharged();
    NothingIsSized();
    NewSessionInOrder();
  }

  lemma NewSessionCharged()
    ensures Charged(NewSession())
  {
  }

  lemma NothingIsSized()
    ensures Sized([])
  {
  }

  lemma NewSessionInOrder()
    ensures InOrder(NewSession())
  {
  }


  lemma {:induction false} RunKeeps(s: State, steps: seq<Step>)
    requires Inv(s) && RunEnabled(s, steps)
    ensures Inv(Run(s, steps))
    decreases |steps|
  {
    hide Inv, Do, Enabled;
    if steps != [] {
      StepKeeps(s, steps[0]);
      RunKeeps(Do(s, steps[0]), steps[1..]);
    }
  }

  /** What a run from a fresh session guarantees, said without the invariant:
      the counter is the pending bytes and within its bound, what was accepted is
      what left the queue followed by what is still in it, and the bytes reported
      are those of the packets delivered. */
  lemma RunAccounts(steps: seq<Step>)
    requires RunEnabled(NewSession(), steps)
    ensures var s := Run(NewSession(), steps);
      && s.queuedBytes == PacketBytes(s.queue) + HeldBytes(s.held) + ReservedBytes(s.reserving) <= QUEUE_MAX_BYTES
      && s.accepted == s.taken + s.queue
      && |s.fates| <= |s.taken|
      && s.uploaded == Lengths(Delivered(s.taken, s.fates))
      && forall p :: p in s.accepted ==> p.len <= MAX_DATAGRAM && p.accounted == Capacity(p.len)
  {
    hide Run, RunEnabled, NewSession, PacketBytes, ReservedBytes, Lengths, Delivered, Sized;
    NewSessionOk();
    RunKeeps(NewSession(), steps);
    AcceptedFit(Run(NewSession(), steps));
  }

  lemma AcceptedFit(s: State)
    requires Inv(s)
    ensures forall p :: p in s.accepted ==> p.len <= MAX_DATAGRAM && p.accounted == Capacity(p.len)
  {
    hide Charged, InOrder, Capacity, PoolClass;
  }

  /** The idle check's reading of the counter is exact: it is zero just when nothing is pending anywhere. */
  lemma ZeroMeansNothingPending(s: State)
    requires Inv(s)
    ensures s.queuedBytes == 0 <==> s.queue == [] && s.held == None && s.reserving == []
  {
    QueueSized(s);
    if s.queue != [] { assert s.queue[0] in s.queue; }
    if s.held.Some? { assert s.held.value in s.taken && s.held.value in s.accepted; }
  }

  /** After the drain every accepted packet has had exactly one fate. */
  lemma DrainedMeansAllDecided(s: State)
    requires Inv(s) && s.exited && s.queue == []
    ensures |s.fates| == |s.accepted| && s.queuedBytes == ReservedBytes(s.reserving)
  {
  }

  // ---------- The objects ----------

  datatype QuotaAnswer = Exact | Short | Refused | StateLost

  /** What the two limiters, the quota and the socket answer for one packet. */
  datatype Attempt = Attempt(limiterOk: bool, trafficOk: bool, quota: QuotaAnswer, writeOk: bool)

  function FateOf(a: Attempt): Fate
  {
    if !a.limiterOk || !a.trafficOk then LimiterStopped
    else if a.quota == StateLost then QuotaStateLost
    else if a.quota != Exact then QuotaRejected
    else if a.writeOk then Forwarded
    else WriteFailed
  }

  /** The three steps of enqueuing one datagram when nothing interferes. */
  function Enqueued(s: State, size: nat, preferDone: bool): State
    requires s.reserving == []
  {
    var r := Do(s, Reserve(size, s.queuedBytes));
    if r.reserving == [] then r
    else if s.cancelled && (preferDone || |s.queue| >= QUEUE_CAPACITY) then Do(r, Abort(0))
    else if |s.queue| < QUEUE_CAPACITY then Do(r, Push(0))
    else Do(r, DropFull(0))
  }

  lemma EnqueuedKeeps(s: State, size: nat, preferDone: bool)
    requires Inv(s) && s.reserving == []
    ensures Inv(Enqueued(s, size, preferDone))
  {
    hide Inv, Capacity, PoolClass;
    StepKeeps(s, Reserve(size, s.queuedBytes));
    var r := Do(s, Reserve(size, s.queuedBytes));
    if r.reserving != [] {
      if s.cancelled && (preferDone || |s.queue| >= QUEUE_CAPACITY) {
        StepKeeps(r, Abort(0));
      } else if |s.queue| < QUEUE_CAPACITY {
        StepKeeps(r, Push(0));
      } else {
        StepKeeps(r, DropFull(0));
      }
    }
  }

  /** Taking the head and deciding its fate; two of the fates also remove the session. */
  function Uploaded(s: State, fate: Fate): State
    requires Enabled(s, Take) && fate != Drained
  {
    var t := Do(Do(s, Take), Finish(fate));
    if fate == QuotaStateLost || fate == WriteFailed then Do(t, Cancel) else t
  }

  lemma UploadedFields(s: State, fate: Fate)
    requires Enabled(s, Take) && fate != Drained
    ensures Uploaded(s, fate) == s.(
      queuedBytes := s.queuedBytes - s.queue[0].accounted,
      queue := s.queue[1..],
      taken := s.taken + [s.queue[0]],
      fates := s.fates + [fate],
      uploaded := s.uploaded + (if fate == Forwarded then s.queue[0].len else 0),
      exited := s.exited || EndsLoop(fate),
      cancelled := s.cancelled || fate == QuotaStateLost || fate == WriteFailed)
  {
  }

  lemma UploadedKeeps(s: State, fate: Fate)
    requires Inv(s) && Enabled(s, Take) && fate != Drained
    ensures Inv(Uploaded(s, fate))
  {
    hide Inv;
    StepKeeps(s, Take);
    StepKeeps(Do(s, Take), Finish(fate));
    StepKeeps(Do(Do(s, Take), Finish(fate)), Cancel);
  }

  class UdpSession {
    const hasQuota: bool
    var queuedBytes: int
    var queue: seq<Packet>
    var cancelled: bool
    var exited: bool
    var dropped: nat
    var uploaded: nat
    var quotaUsed: int
    ghost var accepted: seq<Packet>
    ghost var taken: seq<Packet>
    ghost var fates: seq<Fate>

    ghost function View(): State
      reads this
    {
      State(queuedBytes, [], queue, None, cancelled, exited, dropped, uploaded, accepted, taken, fates)
    }

    constructor (hasQuota: bool)
      ensures View() == NewSession() && quotaUsed == 0 && this.hasQuota == hasQuota
    {
      this.hasQuota := hasQuota;
      queuedBytes, queue, cancelled, exited, dropped, uploaded, quotaUsed := 0, [], false, false, 0, 0, 0;
      accepted, taken, fates := [], [], [];
    }

    /** One datagram of the client; `preferDone` is the choice between two ready cases of the select. */
    method EnqueueUpload(size: nat, preferDone: bool)
      requires Inv(View())
      modifies this
      ensures Inv(View()) && quotaUsed == old(quotaUsed)
      ensures View() == Enqueued(old(View()), size, preferDone)
    {
      hide Inv, Capacity, PoolClass;
      EnqueuedKeeps(View(), size, preferDone);
      var bytes := Capacity(size);
      if queuedBytes + bytes > QUEUE_MAX_BYTES {
        dropped := dropped + 1;
        return;
      }
      queuedBytes := queuedBytes + bytes;
      assert RemoveAt([size], 0) == [];
      var packet := Packet(size, bytes, PoolClass(size), bytes);
      if cancelled && (preferDone || |queue| >= QUEUE_CAPACITY) {
        queuedBytes := queuedBytes - packet.accounted;
      } else if |queue| < QUEUE_CAPACITY {
        queue := queue + [packet];
        accepted := accepted + [packet];
      } else {
        queuedBytes := queuedBytes - packet.accounted;
        dropped := dropped + 1;
      }
    }

    /** One turn of the upload loop: the packet's reservation is finished on every way out. */
    method UploadOne(a: Attempt)
      requires Inv(View()) && queue != [] && !exited
      modifies this
      ensures Inv(View()) && queue == old(queue)[1..]
      ensures View() == Uploaded(old(View()), FateOf(a))
      ensures fates == old(fates) + [FateOf(a)] && accepted == old(accepted)
      ensures quotaUsed - old(quotaUsed) == if hasQuota then uploaded - old(uploaded) else 0
    {
      hide Inv, Uploaded, Do;
      UploadedKeeps(View(), FateOf(a));
      UploadedFields(View(), FateOf(a));
      var packet := queue[0];
      queue, taken := queue[1..], taken + [packet];
      fates := fates + [FateOf(a)];
      if !a.limiterOk || !a.trafficOk {
        exited := true;
      } else if a.quota == StateLost {
        cancelled, exited := true, true;
      } else if a.quota == Exact {
        if hasQuota { quotaUsed := quotaUsed + packet.len; }
        if a.writeOk {
          uploaded := uploaded + packet.len;
        } else {
          if hasQuota { quotaUsed := quotaUsed - packet.len; }
          cancelled, exited := true, true;
        }
      }
      queuedBytes := queuedBytes - packet.accounted;
    }

    method DrainUploadQueue()
      requires Inv(View()) && exited
      modifies this
      ensures Inv(View()) && queue == [] && queuedBytes == 0
      ensures exited && cancelled == old(cancelled) && accepted == old(accepted)
      ensures uploaded == old(uploaded) && quotaUsed == old(quotaUsed)
      ensures old(fates) <= fates && forall i :: |old(fates)| <= i < |fates| ==> fates[i] == Drained
    {
      hide Inv;
      while queue != []
        invariant Inv(View()) && exited && cancelled == old(cancelled) && accepted == old(accepted)
        invariant uploaded == old(uploaded) && quotaUsed == old(quotaUsed)
        invariant old(fates) <= fates && forall i :: |old(fates)| <= i < |fates| ==> fates[i] == Drained
        decreases |queue|
      {
        StepKeeps(View(), Step.Drain);
        queuedBytes := queuedBytes - queue[0].accounted;
        taken, fates := taken + [queue[0]], fates + [Drained];
        queue := queue[1..];
      }
      ZeroMeansNothingPending(View());
    }

    /** The datagrams that arrive while the loop waits or works. */
    method EnqueueAll(sizes: seq<nat>)
      requires Inv(View())
      modifies this
      ensures Inv(View()) && fates == old(fates) && old(accepted) <= accepted
      ensures exited == old(exited) && uploaded == old(uploaded) && quotaUsed == old(quotaUsed)
    {
      hide Inv, Enqueued;
      for i := 0 to |sizes|
        invariant Inv(View()) && fates == old(fates) && old(accepted) <= accepted
        invariant exited == old(exited) && uploaded == old(uploaded) && quotaUsed == old(quotaUsed)
      {
        EnqueuedFrame(View(), sizes[i]);
        EnqueueUpload(sizes[i], false);
      }
    }

    /** The loop over a script of arrivals and answers, ending at the first answer
        that ends it, or at a cancellation after the script; the drain then leaves
        nothing undecided.  `answered` lists the turns whose answer met a packet.
        Arrivals that overlap a packet's handling, or come after the drain, are
        steps of the machine above. */
    method UploadLoop(turns: seq<Turn>) returns (ghost answered: seq<nat>)
      requires Inv(View()) && !exited
      modifies this
      ensures Inv(View()) && exited && queue == [] && queuedBytes == 0 && |fates| == |accepted|
      ensures old(accepted) <= accepted
      ensures Decided(old(fates), fates, turns, answered)
      ensures quotaUsed - old(quotaUsed) == if hasQuota then uploaded - old(uploaded) else 0
    {
      hide Inv, FateOf, Uploaded, EndsLoop;
      answered := [];
      var n := 0;
      while n < |turns| && !exited
        invariant 0 <= n <= |turns|
        invariant Inv(View()) && old(accepted) <= accepted
        invariant Decided(old(fates), fates, turns, answered) && |fates| == |old(fates)| + |answered|
        invariant forall i :: 0 <= i < |answered| ==> answered[i] < n
        invariant quotaUsed - old(quotaUsed) == if hasQuota then uploaded - old(uploaded) else 0
      {
        EnqueueAll(turns[n].arrivals);
        if queue != [] {
          UploadOne(turns[n].answer);
          answered := answered + [n];
        }
        n := n + 1;
      }
      StepKeeps(View(), Cancel);
      cancelled := true;
      StepKeeps(View(), LoopStops);
      exited := true;
      DrainUploadQueue();
      DrainedMeansAllDecided(View());
    }
  }

  /** What arrives before the loop's next receive, and what that packet meets. */
  datatype Turn = Turn(arrivals: seq<nat>, answer: Attempt)

  /** `after` extends `before` by the fates the answered turns gave, in turn order, and then drained packets. */
  ghost predicate Decided(before: seq<Fate>, after: seq<Fate>, turns: seq<Turn>, answered: seq<nat>)
  {
    var n := |answered|;
    && |before| + n <= |after|
    && before <= after
    && (forall i :: 0 <= i < n ==> answered[i] < |turns| && after[|before| + i] == FateOf(turns[answered[i]].answer))
    && (forall i, j :: 0 <= i < j < n ==> answered[i] < answered[j])
    && (forall i :: |before| + n <= i < |after| ==> after[i] == Drained)
  }

  lemma EnqueuedFrame(s: State, size: nat)
    requires s.reserving == []
    ensures var t := Enqueued(s, size, false);
      && t.fates == s.fates && t.exited == s.exited && t.uploaded == s.uploaded && t.cancelled == s.cancelled
      && (t.accepted == s.accepted || t.accepted == s.accepted + [PacketFor(size)])
  {
    hide Capacity, PoolClass;
  }
}

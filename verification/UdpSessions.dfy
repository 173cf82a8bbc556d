/** UDP session admission: per-rule limits, the manager-wide budget, and the
    many paths that close a session. */
module UdpSessions {
  import opened Wrappers

  type Key = string
  type SessionId = nat

  const DEFAULT_GLOBAL_MAX_SESSIONS := DEFAULT_UDP_SESSIONS
  const MAX_GLOBAL_MAX_SESSIONS := 4096
  const DEFAULT_RULE_MAX_SESSIONS := DEFAULT_GLOBAL_MAX_SESSIONS

  datatype Budget = Budget(limit: int, active: int)

  /** One runner: its open sessions by client, and the client it is dialling for while holding its lock. */
  datatype Runner = Runner(maxConn: int, cancelled: bool, sessions: map<Key, SessionId>, dialing: Option<Key>)

  function NormalizeLimit(limit: int): (r: int)
    ensures 1 <= r <= MAX_GLOBAL_MAX_SESSIONS
  {
    if limit <= 0 then DEFAULT_GLOBAL_MAX_SESSIONS else if limit > MAX_GLOBAL_MAX_SESSIONS then MAX_GLOBAL_MAX_SESSIONS else limit
  }

  function SessionLimit(r: Runner): int { if r.maxConn > 0 then r.maxConn else DEFAULT_RULE_MAX_SESSIONS }

  // ---------- Critical sections ----------

  function Acquire(b: Budget): (Budget, bool)
  {
    if b.active >= b.limit then (b, false) else (b.(active := b.active + 1), true)
  }

  function Release(b: Budget): Budget { if b.active > 0 then b.(active := b.active - 1) else b }

  datatype Admission = Known | Stopped | Rejected | Dialing

  /** The admission half of handling a packet. */
  function Admit(r: Runner, b: Budget, key: Key): (Runner, Budget, Admission)
  {
    if key in r.sessions then (r, b, Known)
    else if r.cancelled then (r, b, Stopped)
    else if |r.sessions| >= SessionLimit(r) || !Acquire(b).1 then (r, b, Rejected)
    else (r.(dialing := Some(key)), Acquire(b).0, Dialing)
  }

  function DialFailed(r: Runner, b: Budget): (Runner, Budget) { (r.(dialing := None), Release(b)) }

  function DialSucceeded(r: Runner, id: SessionId): Runner
    requires r.dialing.Some?
  {
    r.(dialing := None, sessions := r.sessions[r.dialing.value := id])
  }

  /** Whether a closer holding session `id` still finds it open under `key`. */
  predicate StillOpen(r: Runner, closed: set<SessionId>, key: Key, id: SessionId)
  {
    key in r.sessions && r.sessions[key] == id && id !in closed
  }

  function CloseOne(r: Runner, b: Budget, key: Key): (Runner, Budget) { (r.(sessions := r.sessions - {key}), Release(b)) }

  function IdsOf(sessions: map<Key, SessionId>, keys: set<Key>): set<SessionId>
  {
    set k | k in sessions && k in keys :: sessions[k]
  }

  /** Halfway through closing the chosen sessions: `gone` are closed, `keys` are to come. */
  ghost predicate Closing(before: map<Key, SessionId>, closed0: set<SessionId>, chosen: set<Key>, gone: set<Key>, keys: set<Key>,
                          sessions: map<Key, SessionId>, closed: set<SessionId>)
  {
    && gone + keys == chosen * before.Keys && gone !! keys
    && sessions == before - gone
    && closed == closed0 + IdsOf(before, gone)
    && |sessions| + |gone| == |before|
  }

  lemma NoneGone(before: map<Key, SessionId>, closed: set<SessionId>, chosen: set<Key>)
    ensures Closing(before, closed, chosen, {}, chosen * before.Keys, before, closed)
  {
    assert before - {} == before;
    assert IdsOf(before, {}) == {};
  }

  lemma OneMoreGone(before: map<Key, SessionId>, closed0: set<SessionId>, chosen: set<Key>, gone: set<Key>, keys: set<Key>,
                    sessions: map<Key, SessionId>, closed: set<SessionId>, key: Key)
    requires Closing(before, closed0, chosen, gone, keys, sessions, closed) && key in keys
    ensures key in sessions && |gone + {key}| == |gone| + 1 <= |before|
    ensures Closing(before, closed0, chosen, gone + {key}, keys - {key}, sessions - {key}, closed + {sessions[key]})
  {
    assert key in chosen * before.Keys;
    Shrinks(before - gone, key);
    assert before - (gone + {key}) == (before - gone) - {key};
    assert IdsOf(before, gone + {key}) == IdsOf(before, gone) + {before[key]};
  }

  lemma AllGone(before: map<Key, SessionId>, closed0: set<SessionId>, chosen: set<Key>, gone: set<Key>,
                sessions: map<Key, SessionId>, closed: set<SessionId>)
    requires Closing(before, closed0, chosen, gone, {}, sessions, closed)
    ensures sessions == before - chosen && closed == closed0 + IdsOf(before, chosen) && |gone| == |before| - |sessions|
  {
    assert gone == chosen * before.Keys;
    assert IdsOf(before, gone) == IdsOf(before, chosen);
    assert before - gone == before - chosen;
  }

  // ---------- Objects ----------

  class SessionBudget {
    var limit: int
    var active: int

    function View(): Budget
      reads this
    {
      Budget(limit, active)
    }

    constructor (limit: int)
      ensures View() == Budget(NormalizeLimit(limit), 0)
    {
      this.limit := NormalizeLimit(limit);
      active := 0;
    }

    method TryAcquire() returns (ok: bool)
      modifies this
      ensures (View(), ok) == Acquire(old(View()))
    {
      if active >= limit { return false; }
      active := active + 1;
      ok := true;
    }

    method ReleaseSlot()
      modifies this
      ensures View() == Release(old(View()))
    {
      if active > 0 { active := active - 1; }
    }

    method SetLimit(limit: int)
      modifies this
      ensures View() == Budget(NormalizeLimit(limit), old(active))
    {
      this.limit := NormalizeLimit(limit);
    }
  }

  class UdpRunner {
    const maxConn: int
    const budget: SessionBudget
    var cancelled: bool
    var sessions: map<Key, SessionId>
    var closed: set<SessionId>
    var nextId: SessionId

    function View(): Runner
      reads this
    {
      Runner(maxConn, cancelled, sessions, None)
    }

    predicate Valid()
      reads this
    {
      (forall k :: k in sessions ==> sessions[k] !in closed && sessions[k] < nextId) &&
      (forall id :: id in closed ==> id < nextId) &&
      (forall j, k :: j in sessions && k in sessions && sessions[j] == sessions[k] ==> j == k)
    }

    constructor (maxConn: int, budget: SessionBudget)
      ensures Valid() && View() == Runner(maxConn, false, map[], None) && this.budget == budget && fresh(this)
    {
      this.maxConn := maxConn;
      this.budget := budget;
      cancelled, sessions, closed, nextId := false, map[], {}, 0;
    }

    /** A packet's client gets its session, a new one if limits and the dial allow. */
    method SessionFor(key: Key, dialOk: bool) returns (session: Option<SessionId>)
      requires Valid()
      modifies this`sessions, this`nextId, budget
      ensures Valid()
      ensures var (r, b, how) := Admit(old(View()), old(budget.View()), key);
        match how
        case Known => View() == old(View()) && budget.View() == old(budget.View()) && session == Some(old(sessions)[key])
        case Dialing =>
          if dialOk
          then View() == DialSucceeded(r, old(nextId)) && budget.View() == b && session == Some(old(nextId))
          else View() == old(View()) && budget.View() == DialFailed(r, b).1 && session == None
        case _ => View() == old(View()) && budget.View() == old(budget.View()) && session == None
    {
      if key in sessions { return Some(sessions[key]); }
      if cancelled { return None; }
      if |sessions| >= (if maxConn > 0 then maxConn else DEFAULT_RULE_MAX_SESSIONS) { return None; }
      var ok := budget.TryAcquire();
      if !ok { return None; }
      if !dialOk {
        budget.ReleaseSlot();
        return None;
      }
      session := Some(nextId);
      sessions := sessions[key := nextId];
      nextId := nextId + 1;
    }

    method CloseSessionLocked(key: Key, id: SessionId)
      requires Valid()
      modifies this`sessions, this`closed, budget
      ensures Valid()
      ensures if StillOpen(old(View()), old(closed), key, id)
              then (View(), budget.View()) == CloseOne(old(View()), old(budget.View()), key) && closed == old(closed) + {id}
              else View() == old(View()) && budget.View() == old(budget.View()) && closed == old(closed)
    {
      if key !in sessions || sessions[key] != id || id in closed { return; }
      closed := closed + {id};
      sessions := sessions - {key};
      budget.ReleaseSlot();
    }

    /** Closing the session a locked walk over the map has just found. */
    method CloseFound(key: Key)
      requires Valid() && key in sessions
      modifies this`sessions, this`closed, budget
      ensures Valid()
      ensures sessions == old(sessions) - {key} && closed == old(closed) + {old(sessions)[key]}
      ensures budget.limit == old(budget.limit)
      ensures budget.active == if old(budget.active) > 0 then old(budget.active) - 1 else old(budget.active)
    {
      CloseSessionLocked(key, sessions[key]);
    }

    /** Closes the sessions of the chosen clients, one by one. */
    method CloseMatching(chosen: set<Key>)
      requires Valid()
      modifies this`sessions, this`closed, budget
      ensures Valid()
      ensures sessions == old(sessions) - chosen
      ensures closed == old(closed) + IdsOf(old(sessions), chosen)
      ensures budget.limit == old(budget.limit)
      ensures old(budget.active) >= |old(sessions)| ==> budget.active == old(budget.active) - (|old(sessions)| - |sessions|)
    {
      hide *;
      ghost var before, closed0, active0 := sessions, closed, budget.active;
      var keys := chosen * sessions.Keys;
      ghost var gone: set<Key> := {};
      NoneGone(before, closed0, chosen);
      while keys != {}
        invariant Valid()
        invariant Closing(before, closed0, chosen, gone, keys, sessions, closed)
        invariant budget.limit == old(budget.limit)
        invariant active0 >= |before| ==> budget.active == active0 - |gone|
        decreases keys
      {
        var key :| key in keys;
        OneMoreGone(before, closed0, chosen, gone, keys, sessions, closed, key);
        CloseFound(key);
        gone, keys := gone + {key}, keys - {key};
      }
      AllGone(before, closed0, chosen, gone, sessions, closed);
    }

    /** Idle sessions go, unless a packet of theirs is queued or being delivered. */
    method CleanupIdleSessions(idle: set<Key>, busy: set<Key>)
      requires Valid()
      modifies this`sessions, this`closed, budget
      ensures Valid() && sessions == old(sessions) - (idle - busy)
      ensures old(budget.active) >= |old(sessions)| ==> budget.active == old(budget.active) - (|old(sessions)| - |sessions|)
    {
      CloseMatching(idle - busy);
    }

    /** Refuses new sessions from now on, then closes those there are. */
    method Stop()
      requires Valid()
      modifies this, budget
      ensures Valid() && cancelled && sessions == map[]
      ensures closed == old(closed) + old(sessions).Values
      ensures old(budget.active) >= |old(sessions)| ==> budget.active == old(budget.active) - |old(sessions)|
    {
      cancelled := true;
      CloseMatching(sessions.Keys);
    }
  }

  // ---------- All runners of one manager, interleaved ----------

  datatype Place = Place(runner: nat, key: Key)

  /** History: `home` (where each session was opened), `released` (how often it
      gave its slot back) and `swept` (the runners whose Stop finished its sweep). */
  datatype State = State(
    budget: Budget,
    runners: seq<Runner>,
    closed: set<SessionId>,
    home: map<SessionId, Place>,
    released: map<SessionId, nat>,
    swept: set<nat>)

  datatype Step =
    | AddRunner(maxConn: int)
    | AdmitPacket(runner: nat, key: Key)
    | FinishDial(runner: nat, ok: bool, newId: SessionId)
    | CloseSession(runner: nat, key: Key, id: SessionId)
    | CancelRunner(runner: nat)
    | EndSweep(runner: nat)
    | SetLimit(limit: int)

  /** A step that takes a runner's lock waits for a dial of that runner to end.
      Stop's sweep is the closings between a runner's cancelling and its EndSweep. */
  predicate Enabled(s: State, step: Step)
  {
    match step
    case AddRunner(_) => true
    case SetLimit(_) => true
    case AdmitPacket(r, _) => r < |s.runners| && s.runners[r].dialing.None?
    case FinishDial(r, _, id) => r < |s.runners| && s.runners[r].dialing.Some? && id !in s.home
    case CloseSession(r, _, id) => r < |s.runners| && s.runners[r].dialing.None? && id in s.home
    case CancelRunner(r) => r < |s.runners|
    case EndSweep(r) =>
      r < |s.runners| && s.runners[r].dialing.None? && s.runners[r].cancelled && s.runners[r].sessions == map[]
  }

  function Do(s: State, step: Step): State
    requires Enabled(s, step)
  {
    match step
    case AddRunner(maxConn) => s.(runners := s.runners + [Runner(maxConn, false, map[], None)])
    case SetLimit(limit) => s.(budget := s.budget.(limit := NormalizeLimit(limit)))
    case AdmitPacket(r, key) =>
      var (runner, budget, _) := Admit(s.runners[r], s.budget, key);
      s.(runners := s.runners[r := runner], budget := budget)
    case FinishDial(r, ok, id) =>
      if ok then Opened(s, r, id)
      else s.(runners := s.runners[r := DialFailed(s.runners[r], s.budget).0], budget := Release(s.budget))
    case CloseSession(r, key, id) => if StillOpen(s.runners[r], s.closed, key, id) then Closed(s, r, key, id) else s
    case CancelRunner(r) => s.(runners := s.runners[r := s.runners[r].(cancelled := true)])
    case EndSweep(r) => s.(swept := s.swept + {r})
  }

  function Opened(s: State, r: nat, id: SessionId): State
    requires r < |s.runners| && s.runners[r].dialing.Some?
  {
    s.(runners := s.runners[r := DialSucceeded(s.runners[r], id)],
       home := s.home[id := Place(r, s.runners[r].dialing.value)],
       released := s.released[id := 0])
  }

  function Closed(s: State, r: nat, key: Key, id: SessionId): State
    requires r < |s.runners|
  {
    s.(runners := s.runners[r := CloseOne(s.runners[r], s.budget, key).0],
       budget := Release(s.budget),
       closed := s.closed + {id},
       released := s.released[id := Count(s.released, id) + 1])
  }

  function Count(released: map<SessionId, nat>, id: SessionId): nat { if id in released then released[id] else 0 }

  /** Slots a runner occupies: open sessions and a dial in progress. */
  function Occupied(r: Runner): nat { |r.sessions| + if r.dialing.Some? then 1 else 0 }

  function TotalOccupied(runners: seq<Runner>): nat
  {
    if runners == [] then 0 else TotalOccupied(runners[..|runners| - 1]) + Occupied(runners[|runners| - 1])
  }

  predicate RunnerOk(runner: Runner, r: nat, home: map<SessionId, Place>, closed: set<SessionId>, swept: bool)
  {
    && Occupied(runner) <= SessionLimit(runner)
    && (runner.dialing.Some? ==> runner.dialing.value !in runner.sessions)
    && (swept ==> runner.cancelled && runner.sessions == map[] && runner.dialing.None?)
    && (forall k :: k in runner.sessions ==>
        runner.sessions[k] in home && home[runner.sessions[k]] == Place(r, k) && runner.sessions[k] !in closed)
  }

  predicate RunnersOk(s: State)
  {
    forall r :: 0 <= r < |s.runners| ==> RunnerOk(s.runners[r], r, s.home, s.closed, r in s.swept)
  }

  predicate IsLive(s: State, id: SessionId)
    requires id in s.home
  {
    var p := s.home[id];
    p.runner < |s.runners| && p.key in s.runners[p.runner].sessions && s.runners[p.runner].sessions[p.key] == id
  }

  /** Each session ever opened is live in its place and holds its slot, or closed and gave it back once. */
  predicate SessionsOk(s: State)
  {
    && s.closed <= s.home.Keys
    && (forall id :: id in s.home ==> IsLive(s, id) == (id !in s.closed))
    && (forall id :: id in s.home ==> Count(s.released, id) == if id in s.closed then 1 else 0)
  }

  predicate Inv(s: State)
  {
    && s.budget.active == TotalOccupied(s.runners)
    && s.budget.limit >= 1
    && RunnersOk(s)
    && (forall r :: r in s.swept ==> r < |s.runners|)
    && SessionsOk(s)
  }

  lemma {:induction false} TotalUpdated(runners: seq<Runner>, i: nat, r: Runner)
    requires i < |runners|
    ensures TotalOccupied(runners[i := r]) == TotalOccupied(runners) - Occupied(runners[i]) + Occupied(r)
    ensures TotalOccupied(runners) >= Occupied(runners[i])
  {
    hide Occupied;
    var last := |runners| - 1;
    if i == last {
      assert runners[i := r][..last] == runners[..last];
    } else {
      TotalUpdated(runners[..last], i, r);
      assert runners[i := r][..last] == runners[..last][i := r];
    }
  }

  lemma TotalAppended(runners: seq<Runner>, r: Runner)
    ensures TotalOccupied(runners + [r]) == TotalOccupied(runners) + Occupied(r)
  {
    hide Occupied;
    assert (runners + [r])[..|runners|] == runners;
  }

  // ----- RunnersOk, step by step -----

  lemma ReplaceRunner(s: State, r: nat, runner: Runner)
    requires RunnersOk(s) && r < |s.runners| && RunnerOk(runner, r, s.home, s.closed, r in s.swept)
    ensures RunnersOk(s.(runners := s.runners[r := runner]))
  {
    hide RunnerOk;
  }

  lemma AdmittedRunnerOk(s: State, r: nat, key: Key)
    requires RunnersOk(s) && Enabled(s, AdmitPacket(r, key))
    ensures RunnerOk(Admit(s.runners[r], s.budget, key).0, r, s.home, s.closed, r in s.swept)
  {
    assert RunnerOk(s.runners[r], r, s.home, s.closed, r in s.swept);
  }

  lemma OpenedRunnersOk(s: State, r: nat, id: SessionId)
    requires RunnersOk(s) && Enabled(s, FinishDial(r, true, id))
    requires s.closed <= s.home.Keys
    ensures RunnersOk(Opened(s, r, id))
  {
    var t := Opened(s, r, id);
    forall q | 0 <= q < |t.runners|
      ensures RunnerOk(t.runners[q], q, t.home, t.closed, q in t.swept)
    {
      assert RunnerOk(s.runners[q], q, s.home, s.closed, q in s.swept);
      OpenedRunnerOk(s, r, id, q);
    }
  }

  lemma OpenedRunnerOk(s: State, r: nat, id: SessionId, q: nat)
    requires Enabled(s, FinishDial(r, true, id)) && q < |s.runners| && s.closed <= s.home.Keys
    requires RunnerOk(s.runners[q], q, s.home, s.closed, q in s.swept)
    ensures var t := Opened(s, r, id); RunnerOk(t.runners[q], q, t.home, t.closed, q in t.swept)
  {
  }

  lemma ClosedRunnerOk(s: State, r: nat, key: Key, id: SessionId, q: nat)
    requires r < |s.runners| && q < |s.runners| && s.runners[r].dialing.None?
    requires StillOpen(s.runners[r], s.closed, key, id)
    requires RunnerOk(s.runners[q], q, s.home, s.closed, q in s.swept)
    requires RunnerOk(s.runners[r], r, s.home, s.closed, r in s.swept)
    ensures var t := Closed(s, r, key, id); RunnerOk(t.runners[q], q, t.home, t.closed, q in t.swept)
  {
    var t := Closed(s, r, key, id);
    if q == r {
      Shrinks(s.runners[r].sessions, key);
    }
    assert forall k :: k in t.runners[q].sessions ==> k in s.runners[q].sessions && t.runners[q].sessions[k] == s.runners[q].sessions[k];
  }

  lemma Shrinks(sessions: map<Key, SessionId>, key: Key)
    requires key in sessions
    ensures |sessions - {key}| == |sessions| - 1
  {
    assert sessions == (sessions - {key})[key := sessions[key]];
  }

  lemma ClosedRunnersOk(s: State, r: nat, key: Key, id: SessionId)
    requires RunnersOk(s) && r < |s.runners| && s.runners[r].dialing.None? && StillOpen(s.runners[r], s.closed, key, id)
    ensures RunnersOk(Closed(s, r, key, id))
  {
    var t := Closed(s, r, key, id);
    forall q | 0 <= q < |t.runners|
      ensures RunnerOk(t.runners[q], q, t.home, t.closed, q in t.swept)
    {
      hide RunnerOk, StillOpen;
      ClosedRunnerOk(s, r, key, id, q);
    }
  }

  // ----- SessionsOk, step by step -----

  lemma SameSessions(s: State, t: State)
    requires SessionsOk(s) && (t.home, t.closed, t.released) == (s.home, s.closed, s.released)
    requires |s.runners| <= |t.runners|
    requires forall r :: 0 <= r < |s.runners| ==> t.runners[r].sessions == s.runners[r].sessions
    requires forall r :: |s.runners| <= r < |t.runners| ==> t.runners[r].sessions == map[]
    ensures SessionsOk(t)
  {
    hide Count;
    forall id | id in t.home ensures IsLive(t, id) == (id !in t.closed) {
      assert IsLive(s, id) == IsLive(t, id);
    }
  }

  lemma OpenedSessionsOk(s: State, r: nat, id: SessionId)
    requires SessionsOk(s) && Enabled(s, FinishDial(r, true, id))
    requires s.runners[r].dialing.value !in s.runners[r].sessions
    ensures SessionsOk(Opened(s, r, id))
  {
    var t := Opened(s, r, id);
    assert IsLive(t, id) && id !in t.closed;
    forall other | other in t.home && other != id ensures IsLive(t, other) == (other !in t.closed) {
      assert IsLive(s, other) == (other !in s.closed);
    }
  }

  lemma ClosedSessionsOk(s: State, r: nat, key: Key, id: SessionId)
    requires SessionsOk(s) && r < |s.runners| && StillOpen(s.runners[r], s.closed, key, id)
    requires id in s.home && s.home[id] == Place(r, key)
    ensures SessionsOk(Closed(s, r, key, id))
  {
    var t := Closed(s, r, key, id);
    assert !IsLive(t, id);
    forall other | other in t.home && other != id ensures IsLive(t, other) == (other !in t.closed) {
      assert IsLive(s, other) == (other !in s.closed);
    }
  }

  // ----- The invariant -----

  lemma AdmitKeeps(s: State, r: nat, key: Key)
    requires Inv(s) && Enabled(s, AdmitPacket(r, key))
    ensures Inv(Do(s, AdmitPacket(r, key)))
  {
    hide RunnersOk, SessionsOk;
    var (runner, budget, _) := Admit(s.runners[r], s.budget, key);
    AdmittedRunnerOk(s, r, key);
    ReplaceRunner(s, r, runner);
    assert RunnersOk(Do(s, AdmitPacket(r, key))) by { RunnersOkIgnoresBudget(s.(runners := s.runners[r := runner]), budget); }
    TotalUpdated(s.runners, r, runner);
    SameSessions(s, Do(s, AdmitPacket(r, key)));
  }

  lemma RunnersOkIgnoresBudget(s: State, budget: Budget)
    requires RunnersOk(s)
    ensures RunnersOk(s.(budget := budget))
  {
    hide RunnerOk;
  }

  lemma DialledKeyIsFree(s: State, r: nat)
    requires RunnersOk(s) && SessionsOk(s) && r < |s.runners| && s.runners[r].dialing.Some?
    ensures s.runners[r].dialing.value !in s.runners[r].sessions
    ensures s.closed <= s.home.Keys
  {
    assert RunnerOk(s.runners[r], r, s.home, s.closed, r in s.swept);
  }

  lemma DialSucceededKeeps(s: State, r: nat, id: SessionId)
    requires Inv(s) && Enabled(s, FinishDial(r, true, id))
    ensures Inv(Opened(s, r, id))
  {
    hide RunnersOk, SessionsOk, IsLive, RunnerOk;
    DialledKeyIsFree(s, r);
    TotalUpdated(s.runners, r, DialSucceeded(s.runners[r], id));
    OpenedRunnersOk(s, r, id);
    OpenedSessionsOk(s, r, id);
  }

  lemma UndialledRunnerOk(s: State, r: nat)
    requires RunnersOk(s) && r < |s.runners|
    ensures RunnerOk(s.runners[r].(dialing := None), r, s.home, s.closed, r in s.swept)
  {
    assert RunnerOk(s.runners[r], r, s.home, s.closed, r in s.swept);
  }

  lemma DialFailedKeeps(s: State, r: nat, id: SessionId)
    requires Inv(s) && Enabled(s, FinishDial(r, false, id))
    ensures Inv(Do(s, FinishDial(r, false, id)))
  {
    hide RunnersOk, SessionsOk, IsLive, RunnerOk;
    var runner := s.runners[r].(dialing := None);
    UndialledRunnerOk(s, r);
    TotalUpdated(s.runners, r, runner);
    ReplaceRunner(s, r, runner);
    RunnersOkIgnoresBudget(s.(runners := s.runners[r := runner]), Release(s.budget));
    SameSessions(s, Do(s, FinishDial(r, false, id)));
  }

  lemma CloseKeeps(s: State, r: nat, key: Key, id: SessionId)
    requires Inv(s) && Enabled(s, CloseSession(r, key, id))
    ensures Inv(Do(s, CloseSession(r, key, id)))
  {
    assert RunnerOk(s.runners[r], r, s.home, s.closed, r in s.swept);
    hide SessionsOk, IsLive, RunnersOk;
    if StillOpen(s.runners[r], s.closed, key, id) {
      var runner := CloseOne(s.runners[r], s.budget, key).0;
      TotalUpdated(s.runners, r, runner);
      Shrinks(s.runners[r].sessions, key);
      ClosedRunnersOk(s, r, key, id);
      ClosedSessionsOk(s, r, key, id);
    }
  }

  lemma CancelKeeps(s: State, r: nat)
    requires Inv(s) && r < |s.runners|
    ensures Inv(Do(s, CancelRunner(r)))
  {
    hide SessionsOk, IsLive;
    var runner := s.runners[r].(cancelled := true);
    assert RunnerOk(s.runners[r], r, s.home, s.closed, r in s.swept);
    TotalUpdated(s.runners, r, runner);
    ReplaceRunner(s, r, runner);
    SameSessions(s, Do(s, CancelRunner(r)));
  }

  lemma NewRunnerOk(maxConn: int, r: nat, home: map<SessionId, Place>, closed: set<SessionId>)
    ensures RunnerOk(Runner(maxConn, false, map[], None), r, home, closed, false)
  {
  }

  lemma AddRunnerKeeps(s: State, maxConn: int)
    requires Inv(s)
    ensures Inv(Do(s, AddRunner(maxConn)))
  {
    hide SessionsOk, IsLive, RunnerOk;
    var runner := Runner(maxConn, false, map[], None);
    TotalAppended(s.runners, runner);
    NewRunnerOk(maxConn, |s.runners|, s.home, s.closed);
    SameSessions(s, Do(s, AddRunner(maxConn)));
  }

  lemma EndSweepKeeps(s: State, r: nat)
    requires Inv(s) && Enabled(s, EndSweep(r))
    ensures Inv(Do(s, EndSweep(r)))
  {
    hide SessionsOk, IsLive;
    SameSessions(s, Do(s, EndSweep(r)));
    assert RunnerOk(s.runners[r], r, s.home, s.closed, true);
  }

  /** Every interleaving of packets, dials, closers, stops and limit changes
      keeps the count: active is the live sessions of all runners plus the dials
      in progress, and a session gives its slot back exactly once however many
      paths try to close it. */
  lemma StepKeeps(s: State, step: Step)
    requires Inv(s) && Enabled(s, step)
    ensures Inv(Do(s, step))
  {
    match step
    case AddRunner(maxConn) => AddRunnerKeeps(s, maxConn);
    case SetLimit(limit) =>
      hide RunnerOk, IsLive, Count;
      SameSessions(s, Do(s, step));
    case AdmitPacket(r, key) => hide Inv, Do; AdmitKeeps(s, r, key);
    case FinishDial(r, ok, id) =>
      if ok { hide Inv; DialSucceededKeeps(s, r, id); } else { hide Inv, Do; DialFailedKeeps(s, r, id); }
    case CloseSession(r, key, id) => hide Inv, Do; CloseKeeps(s, r, key, id);
    case CancelRunner(r) => CancelKeeps(s, r);
    case EndSweep(r) => EndSweepKeeps(s, r);
  }

  // ----- Whole runs -----

  predicate RunEnabled(s: State, steps: seq<Step>)
    decreases |steps|
  {
    steps == [] || (Enabled(s, steps[0]) && RunEnabled(Do(s, steps[0]), steps[1..]))
  }

  function Run(s: State, steps: seq<Step>): State
    requires RunEnabled(s, steps)
    decreases |steps|
  {
    if steps == [] then s else Run(Do(s, steps[0]), steps[1..])
  }

  function Start(limit: int): State { State(Budget(NormalizeLimit(limit), 0), [], {}, map[], map[], {}) }

  lemma {:induction false} RunKeeps(s: State, steps: seq<Step>)
    requires Inv(s) && RunEnabled(s, steps)
    ensures Inv(Run(s, steps))
    ensures s.swept <= Run(s, steps).swept
    decreases |steps|
  {
    hide Inv;
    if steps != [] {
      StepKeeps(s, steps[0]);
      RunKeeps(Do(s, steps[0]), steps[1..]);
    }
  }

  /** From start-up on, the count is exact. */
  lemma RunCounts(limit: int, steps: seq<Step>)
    requires RunEnabled(Start(limit), steps)
    ensures var s := Run(Start(limit), steps);
      Inv(s) && s.budget.active == TotalOccupied(s.runners)
    ensures var s := Run(Start(limit), steps);
      forall id :: id in s.home ==> Count(s.released, id) == if IsLive(s, id) then 0 else 1
  {
    assert Inv(Start(limit));
    RunKeeps(Start(limit), steps);
  }

  /** The highest global limit in force at any time of the run. */
  function Peak(limit: int, steps: seq<Step>): int
    decreases |steps|
  {
    if steps == [] then NormalizeLimit(limit)
    else if steps[0].SetLimit? then Max(NormalizeLimit(limit), Peak(steps[0].limit, steps[1..]))
    else Peak(limit, steps[1..])
  }

  lemma {:induction false} PeakAtLeast(limit: int, steps: seq<Step>)
    ensures NormalizeLimit(limit) <= Peak(limit, steps) <= MAX_GLOBAL_MAX_SESSIONS
    decreases |steps|
  {
    if steps != [] { PeakAtLeast(if steps[0].SetLimit? then steps[0].limit else limit, steps[1..]); }
  }

  lemma StepWithinPeak(s: State, step: Step, peak: int)
    requires Enabled(s, step) && s.budget.limit <= peak && s.budget.active <= peak
    ensures Do(s, step).budget.active <= peak
    ensures Do(s, step).budget.limit == if step.SetLimit? then NormalizeLimit(step.limit) else s.budget.limit
  {
  }

  lemma {:induction false} RunWithinPeak(s: State, limit: int, steps: seq<Step>, peak: int)
    requires RunEnabled(s, steps) && s.budget.limit == NormalizeLimit(limit)
    requires s.budget.active <= peak && Peak(limit, steps) <= peak
    ensures Run(s, steps).budget.active <= peak
    decreases |steps|
  {
    hide Do, Enabled, NormalizeLimit;
    if steps != [] {
      PeakAtLeast(limit, steps);
      StepWithinPeak(s, steps[0], peak);
      var next := if steps[0].SetLimit? then steps[0].limit else limit;
      RunWithinPeak(Do(s, steps[0]), next, steps[1..], peak);
    }
  }

  /** Both limits hold over every run: no runner ever holds more sessions and
      dials than its own limit, and all together never more than the highest
      global limit there has been, which is at most 4096; without a limit change
      that is the limit itself. */
  lemma RunWithinLimits(limit: int, steps: seq<Step>)
    requires RunEnabled(Start(limit), steps)
    ensures var s := Run(Start(limit), steps);
      && (forall r :: 0 <= r < |s.runners| ==> Occupied(s.runners[r]) <= SessionLimit(s.runners[r]))
      && TotalOccupied(s.runners) <= Peak(limit, steps) <= MAX_GLOBAL_MAX_SESSIONS
    ensures (forall i :: 0 <= i < |steps| ==> !steps[i].SetLimit?) ==> TotalOccupied(Run(Start(limit), steps).runners) <= NormalizeLimit(limit)
  {
    hide Run, RunEnabled, Occupied, TotalOccupied, IsLive, Count, NormalizeLimit;
    RunCounts(limit, steps);
    PeakAtLeast(limit, steps);
    RunWithinPeak(Start(limit), limit, steps, Peak(limit, steps));
    PeakWithoutChange(limit, steps);
    RunnersWithinLimits(Run(Start(limit), steps));
  }

  lemma RunnersWithinLimits(s: State)
    requires RunnersOk(s)
    ensures forall r :: 0 <= r < |s.runners| ==> Occupied(s.runners[r]) <= SessionLimit(s.runners[r])
  {
    forall r | 0 <= r < |s.runners| ensures Occupied(s.runners[r]) <= SessionLimit(s.runners[r]) {
      assert RunnerOk(s.runners[r], r, s.home, s.closed, r in s.swept);
    }
  }

  lemma {:induction false} PeakWithoutChange(limit: int, steps: seq<Step>)
    ensures (forall i :: 0 <= i < |steps| ==> !steps[i].SetLimit?) ==> Peak(limit, steps) == NormalizeLimit(limit)
  {
    if steps != [] && forall i :: 0 <= i < |steps| ==> !steps[i].SetLimit? {
      assert forall i :: 0 <= i < |steps[1..]| ==> steps[1..][i] == steps[i + 1];
      PeakWithoutChange(limit, steps[1..]);
    }
  }

  /** Once Stop's sweep is over, no run whatever opens another session, or even dials for one. */
  lemma NothingOpensAfterTheSweep(s: State, r: nat, steps: seq<Step>)
    requires Inv(s) && r in s.swept && RunEnabled(s, steps)
    ensures var t := Run(s, steps);
      r < |t.runners| && t.runners[r].sessions == map[] && t.runners[r].dialing.None?
  {
    RunKeeps(s, steps);
    var t := Run(s, steps);
    assert r in t.swept;
    assert RunnerOk(t.runners[r], r, t.home, t.closed, r in t.swept);
  }

  /** A release always has a slot to give back, so the guard against going below zero never acts. */
  lemma {:induction false} ReleaseIsNeverClamped(s: State, r: nat)
    requires Inv(s) && r < |s.runners|
    ensures s.runners[r].dialing.Some? ==> Release(s.budget).active == s.budget.active - 1
    ensures forall key, id :: StillOpen(s.runners[r], s.closed, key, id) ==> Release(s.budget).active == s.budget.active - 1
  {
    hide RunnersOk, SessionsOk;
    TotalUpdated(s.runners, r, s.runners[r]);
    forall key, id | StillOpen(s.runners[r], s.closed, key, id)
      ensures Release(s.budget).active == s.budget.active - 1
    {
      Shrinks(s.runners[r].sessions, key);
    }
  }
}

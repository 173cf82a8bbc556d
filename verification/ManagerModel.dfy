/** What each manager operation does to the running rules, the live runners and the collector. */
module ManagerModel {
  import opened Wrappers
  import opened Text
  import opened Rules
  import C = Collector

  /** One runner instance: its identity, the endpoint it owns, and the counter it is bound to. */
  datatype Runner = Runner(uid: nat, endpoint: Endpoint, counter: C.Ref)

  datatype Managed = Managed(rule: Rule, runners: seq<Runner>)

  datatype State = State(
    running: map<string, Managed>,
    live: set<Runner>,
    collector: C.State,
    ticks: nat,
    nextUid: nat)

  /** The outside world: whether the n-th start attempt fails, given the
      endpoints then listening, and what live runners forwarded before it. */
  datatype Net = Net(
    fails: (nat, set<Endpoint>, RuntimeKey, Endpoint) -> bool,
    traffic: nat -> map<C.Ref, C.Totals>)

  function LiveEndpoints(s: State): set<Endpoint> { set r | r in s.live :: r.endpoint }

  function Writers(s: State): set<C.Ref> { set r | r in s.live :: r.counter }

  function ToSet(runners: seq<Runner>): set<Runner> { set i | 0 <= i < |runners| :: runners[i] }

  // ---------- Runners ----------

  /** Time passes before a start attempt: live runners forward traffic. */
  function Tick(net: Net, s: State): State
  {
    s.(collector := C.Forward(s.collector, Writers(s), net.traffic(s.ticks)), ticks := s.ticks + 1)
  }

  /** Starts the runners in order; a failure stops those already started. */
  function StartRunners(net: Net, s: State, key: RuntimeKey, runners: seq<Runner>): (State, bool)
    decreases |runners|
  {
    if runners == [] then (s, true)
    else if net.fails(s.ticks, LiveEndpoints(s), key, runners[0].endpoint) then (Tick(net, s), false)
    else
      var s1 := Tick(net, s);
      var (s2, ok) := StartRunners(net, s1.(live := s1.live + {runners[0]}), key, runners[1..]);
      if ok then (s2, true) else (s2.(live := s2.live - {runners[0]}), false)
  }

  function NewRunners(s: State, rule: Rule): seq<Runner>
  {
    var c := C.GetCounter(s.collector, rule.ruleId);
    var endpoints := EndpointsOf(KeyOf(rule));
    seq(|endpoints|, i requires 0 <= i < |endpoints| => Runner(s.nextUid + i, endpoints[i], c.counters[rule.ruleId]))
  }

  /** Building runners binds them to the rule's counter, creating it when missing. */
  function AfterBuild(s: State, rule: Rule): State
  {
    s.(collector := C.GetCounter(s.collector, rule.ruleId), nextUid := s.nextUid + |NewRunners(s, rule)|)
  }

  function EnsureMetadata(s: State, rule: Rule): State
  {
    s.(collector := C.EnsureMetadata(s.collector, rule))
  }

  /** Removes the rule's entry and stops its runners. */
  function Detach(s: State, id: string): State
  {
    if id in s.running then s.(running := s.running - {id}, live := s.live - ToSet(s.running[id].runners)) else s
  }

  // ---------- Single-rule operations ----------

  /** Builds and starts runners for a rule that is not running. */
  function Launch(net: Net, s: State, rule: Rule): (State, bool)
  {
    var runners := NewRunners(s, rule);
    var (s1, ok) := StartRunners(net, AfterBuild(s, rule), KeyOf(rule), runners);
    if ok then (s1.(running := s1.running[rule.ruleId := Managed(rule, runners)]), true) else (s1, false)
  }

  function StartRule(net: Net, s: State, raw: Rule): (State, bool)
  {
    var rule := Standardize(raw);
    if !Valid(rule) then (s, false)
    else if !rule.enabled then (if rule.ruleId in s.running then s else EnsureMetadata(s, rule), true)
    else if rule.ruleId in s.running then (s, false)
    else Launch(net, EnsureMetadata(s, rule), rule)
  }

  function StopRule(s: State, raw: string): State
  {
    var id := TrimSpace(raw);
    if id == "" then s
    else var s1 := Detach(s, id); s1.(collector := C.SetConns(s1.collector, id, 0))
  }

  /** How a restart ended: done, refused before or failed with nothing to go
      back to, failed with the old rule running again, failed with the rule gone. */
  datatype Restart = Restarted | Failed | Restored | Lost

  /** The old rule is stopped once the new runners are built; they are started only then. */
  function StopForRestart(s: State, rule: Rule): State
  {
    var s1 := AfterBuild(s, rule);
    var s2 := Detach(s1, rule.ruleId);
    EnsureMetadata(if rule.ruleId in s.running then s2.(collector := C.SetConns(s2.collector, rule.ruleId, 0)) else s2, rule)
  }

  function RestoreAfterFailure(net: Net, s: State, previous: Option<Rule>): (State, Restart)
  {
    if previous.None? then (s, Failed)
    else
      var (s1, ok) := Launch(net, EnsureMetadata(s, previous.value), previous.value);
      (s1, if ok then Restored else Lost)
  }

  function RestartRule(net: Net, s: State, raw: Rule): (State, Restart)
  {
    var rule := Standardize(raw);
    if !Valid(rule) then (s, Failed)
    else if !rule.enabled then (StopRule(EnsureMetadata(s, rule), rule.ruleId), Restarted)
    else
      var previous := if rule.ruleId in s.running then Some(s.running[rule.ruleId].rule) else None;
      var runners := NewRunners(s, rule);
      var (s1, ok) := StartRunners(net, StopForRestart(s, rule), KeyOf(rule), runners);
      if ok then (s1.(running := s1.running[rule.ruleId := Managed(rule, runners)]), Restarted)
      else RestoreAfterFailure(net, s1, previous)
  }

  function UpdateRule(s: State, rule: Rule): State
  {
    if rule.ruleId in s.running
    then s.(running := s.running[rule.ruleId := s.running[rule.ruleId].(rule := rule)])
    else s
  }

  // ---------- The transaction ----------

  datatype Action = ActionStarted | ActionRestarted | ActionStopped | ActionRemoved | ActionUnchanged

  /** One entry of the undo journal. */
  datatype Undo =
    | UpdateBack(previous: Rule)
    | RestartBack(previous: Rule)
    | StartAgain(previous: Rule)
    | StopAgain(id: string)

  function UndoId(u: Undo): string { if u.StopAgain? then u.id else u.previous.ruleId }

  datatype Applied = Applied(state: State, action: Action, undo: Option<Undo>) | Broken(state: State, how: Restart)

  /** One desired rule, already standardised and validated. */
  function ApplyOne(net: Net, s: State, rule: Rule): Applied
  {
    var id := rule.ruleId;
    if !rule.enabled then
      var s1 := EnsureMetadata(s, rule);
      if id in s.running then Applied(StopRule(s1, id), ActionStopped, Some(StartAgain(s.running[id].rule)))
      else Applied(s1, ActionUnchanged, None)
    else if id in s.running && RuntimeEqual(s.running[id].rule, rule) then
      Applied(EnsureMetadata(UpdateRule(s, rule), rule), ActionUnchanged, Some(UpdateBack(s.running[id].rule)))
    else if id in s.running then
      var (s1, how) := RestartRule(net, s, rule);
      if how.Restarted? then Applied(s1, ActionRestarted, Some(RestartBack(s.running[id].rule))) else Broken(s1, how)
    else
      var (s1, ok) := StartRule(net, s, rule);
      if ok then Applied(s1, ActionStarted, Some(StopAgain(id))) else Broken(s1, Failed)
  }

  function Journaled(journal: seq<Undo>, undo: Option<Undo>): seq<Undo>
  {
    if undo.Some? then journal + [undo.value] else journal
  }

  datatype Progress =
    | Done(state: State, journal: seq<Undo>)
    | Stuck(state: State, journal: seq<Undo>, rule: Rule, how: Restart)

  /** The desired rules, in order, until one fails. */
  function ApplyDesired(net: Net, s: State, desired: seq<Rule>, journal: seq<Undo>): Progress
    decreases |desired|
  {
    if desired == [] then Done(s, journal)
    else match ApplyOne(net, s, desired[0])
      case Applied(s1, _, undo) => ApplyDesired(net, s1, desired[1..], Journaled(journal, undo))
      case Broken(s1, how) => Stuck(s1, journal, desired[0], how)
  }

  /** A running rule the snapshot does not mention is stopped and its statistics dropped. */
  function RemoveRunning(s: State, id: string): State
  {
    var s1 := StopRule(s, id);
    s1.(collector := C.RemoveRule(s1.collector, id))
  }

  /** Replace-all: every running rule in `ids`, in order. */
  function RemoveAll(s: State, ids: seq<string>, journal: seq<Undo>): Progress
    decreases |ids|
  {
    if ids == [] then Done(s, journal)
    else RemoveAll(RemoveRunning(s, ids[0]), ids[1..],
                   if ids[0] in s.running then journal + [StartAgain(s.running[ids[0]].rule)] else journal)
  }

  /** Replace-all: statistics of rules that are known but not running. */
  function ForgetAll(c: C.State, ids: seq<string>): C.State
    decreases |ids|
  {
    if ids == [] then c else ForgetAll(C.RemoveRule(c, ids[0]), ids[1..])
  }

  function RunUndo(net: Net, s: State, u: Undo): (State, bool)
  {
    match u
    case UpdateBack(previous) => (UpdateRule(s, previous), true)
    case RestartBack(previous) => var (s1, how) := RestartRule(net, s, previous); (s1, how.Restarted?)
    case StartAgain(previous) => StartRule(net, s, previous)
    case StopAgain(id) => (StopRule(s, id), true)
  }

  /** The journal backwards; `true` when every undo succeeded. */
  function UndoAll(net: Net, s: State, journal: seq<Undo>): (State, bool)
    decreases |journal|
  {
    if journal == [] then (s, true)
    else
      var (s1, ok1) := RunUndo(net, s, journal[|journal| - 1]);
      var (s2, ok2) := UndoAll(net, s1, journal[..|journal| - 1]);
      (s2, ok1 && ok2)
  }

  /** Metadata of the rules that are running, realigned one by one. */
  function AlignAll(s: State, rules: seq<Rule>): State
    decreases |rules|
  {
    if rules == [] then s else AlignAll(EnsureMetadata(s, rules[0]), rules[1..])
  }

  function RestoreCollector(s: State, before: C.Snapshot): State
  {
    s.(collector := C.Restore(s.collector, before))
  }

  /** The rule each running id was given. */
  function RulesOf(s: State): map<string, Rule>
  {
    map id | id in s.running :: s.running[id].rule
  }
}

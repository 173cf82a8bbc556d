/** The rules PUT and the reload: one change spanning the config file, the
    running rules and the UDP session limit. */
module ConfigCommit {
  import opened Wrappers
  import opened Rules
  import C = Collector
  import M = ManagerModel
  import I = ManagerInvariant
  import T = ManagerTransaction
  import R = ManagerRollback
  import Y = ManagerTotality
  import U = UdpSessions
  import opened Manager

  /** File content; its revision is an injective hash, so content stands for revision. */
  type Raw = string

  /** A file at the config path: content and identity. */
  datatype File = File(raw: Raw, inode: nat)

  datatype Config = Config(rules: seq<Rule>, udpMaxSessions: int)

  predicate LimitOk(limit: int) { 1 <= limit <= U.MAX_GLOBAL_MAX_SESSIONS }

  /** What config.Parse guarantees about a config it accepts. */
  predicate ConfigOk(c: Config)
  {
    T.Prevalidated(c.rules) && LimitOk(c.udpMaxSessions)
  }

  type Parser = Raw -> Option<Config>

  ghost predicate ParserOk(parse: Parser)
  {
    forall raw :: parse(raw).Some? ==> ConfigOk(parse(raw).value)
  }

  datatype CommitError = NoError | AlreadyClosed | Conflict | NotReplaced | NotSynced

  /** The directory holding the config file and temporary files beside it. */
  class Directory {
    var file: File
    var temps: map<nat, Raw>
    var nextInode: nat

    predicate Valid()
      reads this
    {
      file.inode < nextInode && file.inode !in temps && forall t :: t in temps ==> t < nextInode
    }

    constructor (raw: Raw)
      ensures Valid() && file.raw == raw && temps == map[]
    {
      file, temps, nextInode := File(raw, 0), map[], 1;
    }

    /** Another program replaces the config file. */
    method Edit(raw: Raw)
      requires Valid()
      modifies this
      ensures Valid() && file.raw == raw && file.inode == old(nextInode) && temps == old(temps)
    {
      file := File(raw, nextInode);
      nextInode := nextInode + 1;
    }

    method CreateTemp(raw: Raw) returns (temp: nat)
      requires Valid()
      modifies this
      ensures Valid() && temp !in old(temps) && temps == old(temps)[temp := raw] && file == old(file)
    {
      temp := nextInode;
      temps := temps[temp := raw];
      nextInode := nextInode + 1;
    }
  }

  /** A synced temporary file awaiting the rename that commits it. */
  class StagedConfig {
    const dir: Directory
    const source: File
    var temp: Option<nat>
    var done: bool
    var committed: bool

    predicate Open()
      reads this, dir
    {
      !done && !committed && temp.Some? && temp.value in dir.temps
    }

    constructor (dir: Directory, source: File, temp: nat)
      requires temp in dir.temps
      ensures this.dir == dir && this.source == source && this.temp == Some(temp) && Open()
    {
      this.dir, this.source, this.temp := dir, source, Some(temp);
      done, committed := false, false;
    }

    /** Renames the temporary file over an unchanged config file.  `replaceOk`
        and `syncOk` are the file system's answers. */
    method Commit(replaceOk: bool, syncOk: bool) returns (err: CommitError)
      requires dir.Valid() && (done || Open())
      modifies this, dir
      ensures dir.Valid()
      ensures err.AlreadyClosed? <==> old(done)
      ensures !old(done) ==> (err.Conflict? <==> old(dir.file) != source)
      ensures err.NoError? || err.NotSynced? <==> !old(done) && old(dir.file) == source && replaceOk
      ensures err.NotSynced? ==> !syncOk
      ensures err.NoError? ==> syncOk
      ensures if err.NoError? || err.NotSynced?
              then committed && done && old(temp).Some? && dir.file == File(old(dir.temps)[old(temp).value], old(temp).value) &&
                   dir.temps == old(dir.temps) - {old(temp).value}
              else committed == old(committed) && done == old(done) && temp == old(temp) &&
                   dir.file == old(dir.file) && dir.temps == old(dir.temps)
    {
      if done || temp.None? { return AlreadyClosed; }
      if dir.file != source { return Conflict; }
      if !replaceOk { return NotReplaced; }
      var t := temp.value;
      dir.file := File(dir.temps[t], t);
      dir.temps := dir.temps - {t};
      done, committed, temp := true, true, None;
      err := if syncOk then NoError else NotSynced;
    }

    /** Removes an uncommitted temporary file; a closed one is left alone.
        `removeOk` is the file system's answer; when it fails the file stays and
        removing it may be tried again. */
    method Discard(removeOk: bool) returns (ok: bool)
      requires dir.Valid() && (done || Open())
      modifies this, dir
      ensures dir.Valid() && dir.file == old(dir.file) && committed == old(committed)
      ensures ok <==> done
      ensures ok <==> old(done) || removeOk
      ensures dir.temps == if !old(done) && removeOk then old(dir.temps) - {old(temp).value} else old(dir.temps)
      ensures !ok ==> temp == old(temp) && Open()
    {
      if done || temp.None? { return true; }
      if !removeOk { return false; }
      dir.temps := dir.temps - {temp.value};
      done, temp := true, None;
      ok := true;
    }
  }

  /** One temporary file more than before, holding `raw`. */
  predicate OneLeft(before: map<nat, Raw>, after: map<nat, Raw>, raw: Raw)
  {
    exists t :: t in after && t !in before && after == before[t := raw]
  }

  datatype Response =
    | Ok(raw: Raw)
    | LoadFailed
    | StaleRevision
    | InvalidDraft
    | PrecheckFailed
    | StageFailed
    | ApplyFailed(rollbackFailed: bool)
    | CommitConflict(rollbackFailed: bool)
    | CommitFailed(rollbackFailed: bool)
    | DurabilityUnknown(raw: Raw)

  /** What happens around one request: other programs' edits of the config file
      before staging and before committing, and the answers of the file system
      and of the pre-check. */
  datatype World = World(
    editBeforeStage: Option<Raw>,
    editBeforeCommit: Option<Raw>,
    precheckOk: bool,
    stageOk: bool,
    replaceOk: bool,
    syncOk: bool,
    removeOk: bool)

  /** Exactly the enabled rules of the config run. */
  ghost predicate RunsExactly(s: M.State, c: Config)
  {
    forall id, rule :: (id in s.running && s.running[id].rule == rule) <==> Y.Wanted(c.rules, id, rule)
  }

  type Draft = string

  /** Building a candidate document from the source document and the draft. */
  type Builder = (Raw, Draft) -> Option<Raw>

  class Runtime {
    const manager: Manager
    const dir: Directory
    const parse: Parser
    const build: Builder
    var udpLimit: int
    var degraded: bool

    ghost predicate Valid()
      reads this, manager, manager.collector, dir
    {
      manager.Ready() && dir.Valid() && LimitOk(udpLimit) && ParserOk(parse)
    }

    constructor (manager: Manager, dir: Directory, parse: Parser, build: Builder, udpLimit: int)
      requires manager.Ready() && dir.Valid() && ParserOk(parse)
      ensures this.manager == manager && this.dir == dir && this.parse == parse && this.build == build
      ensures this.udpLimit == U.NormalizeLimit(udpLimit) && !degraded && Valid()
    {
      this.manager, this.dir, this.parse, this.build := manager, dir, parse, build;
      this.udpLimit := U.NormalizeLimit(udpLimit);
      degraded := false;
    }

    method SetUDPMaxSessions(limit: int)
      modifies this`udpLimit
      ensures udpLimit == U.NormalizeLimit(limit)
    {
      udpLimit := U.NormalizeLimit(limit);
    }

    /** Loads the document, checks the client's revision, builds and pre-checks the candidate. */
    method PrepareCandidate(revision: Raw, draft: Draft, precheckOk: bool) returns (problem: Option<Response>, raw: Raw, candidate: Config)
      requires Valid()
      ensures problem.None? ==>
        dir.file.raw == revision && build(revision, draft) == Some(raw) && parse(raw) == Some(candidate) && precheckOk &&
        ConfigOk(candidate)
      ensures problem == Some(StaleRevision) <==> parse(dir.file.raw).Some? && dir.file.raw != revision
      ensures problem.Some? ==> problem.value in {LoadFailed, StaleRevision, InvalidDraft, PrecheckFailed}
    {
      raw, candidate := "", Config([], 0);
      if parse(dir.file.raw).None? { return Some(LoadFailed), raw, candidate; }
      if dir.file.raw != revision { return Some(StaleRevision), raw, candidate; }
      var built := build(revision, draft);
      if built.None? || parse(built.value).None? { return Some(InvalidDraft), raw, candidate; }
      raw, candidate := built.value, parse(built.value).value;
      problem := if precheckOk then None else Some(PrecheckFailed);
    }

    method ExternalEdit(edit: Option<Raw>)
      requires dir.Valid()
      modifies dir
      ensures dir.Valid() && dir.temps == old(dir.temps)
      ensures dir.file == if edit.None? then old(dir.file) else File(edit.value, old(dir.nextInode))
    {
      if edit.Some? { dir.Edit(edit.value); }
    }

    /** Applies the candidate's rules; the limit is tightened before and never loosened until the end. */
    method ApplyCandidate(candidate: Config) returns (result: ApplyResult, ghost during: int)
      requires Valid() && ConfigOk(candidate)
      modifies this`udpLimit, manager, manager.collector
      ensures Valid() && during == Min(old(udpLimit), candidate.udpMaxSessions) == udpLimit
      ensures result.failure.NoFailure? ==>
        Pending(old(manager.View()), manager.View(), result) && RunsExactly(manager.View(), candidate)
      ensures !result.failure.NoFailure? ==>
        (!result.rollbackFailed ==> M.RulesOf(manager.View()) == M.RulesOf(old(manager.View())))
    {
      hide I.Inv, Standard, Rules.Valid, Standardize, C.Grows, T.LeadsBack, C.IsSnapshot, R.LeftoversOf, R.Aligned, R.CountersBack, ParserOk;
      if candidate.udpMaxSessions < udpLimit { SetUDPMaxSessions(candidate.udpMaxSessions); }
      during := udpLimit;
      ghost var s0 := manager.View();
      ghost var removed, forgotten;
      AlreadyStandard(candidate.rules);
      result, removed, forgotten := manager.BeginApply(candidate.rules, true);
      if result.failure.NoFailure? {
        Y.SuccessRunsExactlyDesired(manager.net, s0, candidate.rules, removed, forgotten);
      }
    }
  
    /** Stages the candidate over an unchanged document. */
    method Stage(raw: Raw, revision: Raw, stageOk: bool) returns (problem: Option<Response>, staged: Option<StagedConfig>)
      requires dir.Valid()
      modifies dir
      ensures dir.Valid() && dir.file == old(dir.file)
      ensures problem.Some? <==> staged.None?
      ensures problem.Some? ==> dir.temps == old(dir.temps) && problem.value in {StaleRevision, StageFailed}
      ensures problem == Some(StaleRevision) <==> dir.file.raw != revision
      ensures staged.Some? ==>
        fresh(staged.value) && staged.value.dir == dir && staged.value.source == dir.file && dir.file.raw == revision &&
        staged.value.Open() && staged.value.temp.value !in old(dir.temps) &&
        dir.temps == old(dir.temps)[staged.value.temp.value := raw]
    {
      if dir.file.raw != revision { return Some(StaleRevision), None; }
      if !stageOk { return Some(StageFailed), None; }
      var temp := dir.CreateTemp(raw);
      var s := new StagedConfig(dir, dir.file, temp);
      return None, Some(s);
    }

    /** Commits a staged candidate whose rules are already applied, or takes the apply back. */
    method CommitOrRollBack(staged: StagedConfig, raw: Raw, candidate: Config, result: ApplyResult, ghost origin: M.State, previousLimit: int, world: World)
        returns (response: Response)
      requires Valid() && ConfigOk(candidate) && LimitOk(previousLimit) && staged.dir == dir && staged.Open()
      requires dir.temps[staged.temp.value] == raw
      requires I.Inv(origin) && Pending(origin, manager.View(), result) && RunsExactly(manager.View(), candidate)
      modifies this, manager, manager.collector, dir, staged
      ensures Valid()
      ensures response.Ok? || response.DurabilityUnknown? <==> staged.committed
      ensures staged.committed ==>
        old(dir.file) == staged.source && dir.file.raw == raw && RunsExactly(manager.View(), candidate) &&
        udpLimit == candidate.udpMaxSessions && degraded == response.DurabilityUnknown?
      ensures !staged.committed ==>
        dir.file == old(dir.file) && udpLimit == previousLimit && (response.CommitConflict? || response.CommitFailed?) &&
        degraded == (old(degraded) || response.rollbackFailed) &&
        (!response.rollbackFailed ==> M.RulesOf(manager.View()) == M.RulesOf(origin))
      ensures response.CommitConflict? ==> old(dir.file) != staged.source
      ensures if staged.committed then staged.done && dir.temps == old(dir.temps) - {old(staged.temp).value}
              else staged.Open() && staged.temp == old(staged.temp) && dir.temps == old(dir.temps)
    {
      hide I.Inv, Standard, Rules.Valid, Standardize, C.Grows, T.LeadsBack, C.IsSnapshot, R.Aligned, R.CountersBack, T.Prevalidated, Y.Wanted, M.RulesOf;
      var pending := new SnapshotApplyTransaction(manager, result, origin);
      var err := staged.Commit(world.replaceOk, world.syncOk);
      if err.NoError? || err.NotSynced? {
        SetUDPMaxSessions(candidate.udpMaxSessions);
        pending.Commit();
        degraded := err.NotSynced?;
        return if err.NotSynced? then DurabilityUnknown(raw) else Ok(raw);
      }
      var attempted, rollbackFailed := pending.Rollback();
      SetUDPMaxSessions(previousLimit);
      if rollbackFailed { degraded := true; }
      response := if err.Conflict? then CommitConflict(rollbackFailed) else CommitFailed(rollbackFailed);
    }

    /** Everything after staging: tighten, apply, then commit or roll back. */
    method ApplyAndCommit(staged: StagedConfig, raw: Raw, candidate: Config, world: World)
        returns (response: Response, ghost during: int)
      requires Valid() && ConfigOk(candidate) && staged.dir == dir && staged.Open() && dir.temps[staged.temp.value] == raw
      requires staged.source == dir.file
      modifies this, manager, manager.collector, dir, staged
      ensures Valid() && during == Min(old(udpLimit), candidate.udpMaxSessions)
      ensures response.Ok? || response.DurabilityUnknown? <==> staged.committed
      ensures staged.committed ==>
        world.editBeforeCommit.None? && dir.file.raw == raw && RunsExactly(manager.View(), candidate) &&
        udpLimit == candidate.udpMaxSessions && degraded == response.DurabilityUnknown?
      ensures !staged.committed ==>
        udpLimit == old(udpLimit) &&
        (dir.file == old(dir.file) || Some(dir.file.raw) == world.editBeforeCommit)
      ensures !staged.committed ==>
        (response.ApplyFailed? || response.CommitConflict? || response.CommitFailed?) &&
        degraded == (old(degraded) || response.rollbackFailed) &&
        (!response.rollbackFailed ==> M.RulesOf(manager.View()) == M.RulesOf(old(manager.View())))
      ensures staged.done <==> staged.committed || world.removeOk
      ensures dir.temps == if staged.done then old(dir.temps) - {old(staged.temp).value} else old(dir.temps)
    {
      hide I.Inv, RunsExactly, ParserOk, M.RulesOf, Pending, T.Prevalidated;
      var previousLimit := udpLimit;
      ghost var origin := manager.View();
      var result: ApplyResult;
      result, during := ApplyCandidate(candidate);
      if !result.failure.NoFailure? {
        SetUDPMaxSessions(previousLimit);
        if result.rollbackFailed { degraded := true; }
        response := Response.ApplyFailed(result.rollbackFailed);
      } else {
        ExternalEdit(world.editBeforeCommit);
        response := CommitOrRollBack(staged, raw, candidate, result, origin, previousLimit, world);
      }
      var _ := staged.Discard(world.removeOk);
    }

    /** One rules PUT.  `during` is the session limit while the rules are being applied. */
    method PutRules(revision: Raw, draft: Draft, world: World) returns (response: Response, ghost during: Option<int>)
      requires Valid()
      modifies this, manager, manager.collector, dir
      ensures Valid()
      // renamed: disk, running rules and session limit are all the candidate's
      ensures response.Ok? || response.DurabilityUnknown? ==>
        build(revision, draft) == Some(dir.file.raw) && parse(dir.file.raw).Some? &&
        RunsExactly(manager.View(), parse(dir.file.raw).value) && udpLimit == parse(dir.file.raw).value.udpMaxSessions &&
        degraded == response.DurabilityUnknown?
      // no lost update: what was replaced is the revision the client named, untouched by anyone else
      ensures response.Ok? || response.DurabilityUnknown? ==>
        old(dir.file).raw == revision && world.editBeforeStage in {None, Some(revision)} && world.editBeforeCommit.None?
      // not renamed: the file is as others left it and the limit is back
      ensures !response.Ok? && !response.DurabilityUnknown? ==>
        udpLimit == old(udpLimit) &&
        (dir.file == old(dir.file) || Some(dir.file.raw) in {world.editBeforeStage, world.editBeforeCommit})
      // not renamed although the apply began: the rules are back unless the rollback failed, which degraded then records
      ensures response.ApplyFailed? || response.CommitConflict? || response.CommitFailed? ==>
        degraded == (old(degraded) || response.rollbackFailed) &&
        (!response.rollbackFailed ==> M.RulesOf(manager.View()) == M.RulesOf(old(manager.View())))
      // refused before the apply: the runtime was not touched
      ensures during.None? <==>
        response.LoadFailed? || response.StaleRevision? || response.InvalidDraft? || response.PrecheckFailed? || response.StageFailed?
      ensures during.None? ==> manager.View() == old(manager.View()) && degraded == old(degraded)
      // the temporary file stays only if it was staged, not renamed, and could not be removed
      ensures if (response.ApplyFailed? || response.CommitConflict? || response.CommitFailed?) && !world.removeOk
              then build(revision, draft).Some? && OneLeft(old(dir.temps), dir.temps, build(revision, draft).value)
              else dir.temps == old(dir.temps)
      ensures response == StaleRevision && old(dir.file).raw == revision ==> world.editBeforeStage.Some?
      ensures during.Some? ==>
        build(revision, draft).Some? && parse(build(revision, draft).value).Some? &&
        during.value == Min(old(udpLimit), parse(build(revision, draft).value).value.udpMaxSessions)
    {
      hide I.Inv, RunsExactly, ParserOk, ConfigOk, M.RulesOf, Pending;
      during := None;
      var problem, raw, candidate := PrepareCandidate(revision, draft, world.precheckOk);
      if problem.Some? { return problem.value, None; }
      ExternalEdit(world.editBeforeStage);
      var staged: Option<StagedConfig>;
      problem, staged := Stage(raw, revision, world.stageOk);
      if problem.Some? { return problem.value, None; }
      ghost var window: int;
      response, window := ApplyAndCommit(staged.value, raw, candidate, world);
      during := Some(window);
    }

    /** Reload: the file is what an operator wrote; only the runtime follows it. */
    method Reload(precheckOk: bool) returns (ok: bool, rollbackFailed: bool, ghost during: Option<int>)
      requires Valid()
      modifies this, manager, manager.collector
      ensures Valid() && dir.file == old(dir.file)
      ensures ok ==>
        parse(dir.file.raw).Some? && precheckOk && !degraded &&
        RunsExactly(manager.View(), parse(dir.file.raw).value) && udpLimit == parse(dir.file.raw).value.udpMaxSessions
      ensures !ok ==> udpLimit == old(udpLimit) && (old(degraded) ==> degraded)
      ensures !ok && !degraded ==> manager.View() == old(manager.View())
      ensures during.None? ==> !ok && manager.View() == old(manager.View()) && degraded == old(degraded)
      ensures during.None? <==> parse(dir.file.raw).None? || !precheckOk
      ensures during.Some? ==> degraded == !ok
      ensures !ok && !rollbackFailed ==> M.RulesOf(manager.View()) == M.RulesOf(old(manager.View()))
      ensures during.Some? ==>
        parse(dir.file.raw).Some? && during.value == Min(old(udpLimit), parse(dir.file.raw).value.udpMaxSessions)
    {
      hide I.Inv, Standard, Rules.Valid, Standardize, C.Grows, T.LeadsBack, C.IsSnapshot, T.Prevalidated, Y.Wanted, M.RulesOf, Pending;
      during := None;
      var parsed := parse(dir.file.raw);
      if parsed.None? || !precheckOk { return false, false, None; }
      var previousLimit := udpLimit;
      var result: ApplyResult;
      ghost var window: int;
      result, window := ApplyCandidate(parsed.value);
      during := Some(window);
      if !result.failure.NoFailure? {
        if parsed.value.udpMaxSessions < previousLimit { SetUDPMaxSessions(previousLimit); }
        degraded := true;
        return false, result.rollbackFailed, during;
      }
      if parsed.value.udpMaxSessions > previousLimit { SetUDPMaxSessions(parsed.value.udpMaxSessions); }
      degraded := false;
      ok, rollbackFailed := true, false;
    }
  }

  lemma AlreadyStandard(rules: seq<Rule>)
    requires T.Prevalidated(rules)
    ensures StandardizeAll(rules) == rules
  {
    hide Rules.Valid, Standardize;
    forall i | 0 <= i < |rules| ensures StandardizeAll(rules)[i] == rules[i] { assert Standard(rules[i]); }
  }
}

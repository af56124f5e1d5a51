// A whole plan written out as the document a drill is queued with, and read
// back by the worker that executes it (internal/plan/plan.go).
module PlanDocument {
  import opened Core
  import opened Plans
  import opened PlanYaml

  /** A mapping with the entries that are not left out. */
  function Block(keys: set<string>, entry: string -> Yaml): map<string, Yaml> {
    map key | key in keys && entry(key) != Null :: entry(key)
  }

  lemma BlockReads(keys: set<string>, entry: string -> Yaml)
    ensures Block(keys, entry).Keys <= keys
    ensures forall key :: key in keys ==> At(Block(keys, entry), key) == entry(key)
    ensures forall key :: key in Block(keys, entry) ==> Block(keys, entry)[key] != Null
  {
  }

  lemma BothHalvesAreRead(parts: set<string>, notes: set<string>, entry: string -> Yaml)
    ensures var m := Block(parts + notes, entry);
      && m.Keys <= parts + notes
      && (forall key :: key in notes ==> At(m, key) == entry(key))
      && (forall key :: key in parts ==> At(m, key) == entry(key))
  {
    BlockReads(parts + notes, entry);
  }

  /** The entries of a mapping that names no key the program does not know. */
  function Mapping(v: Yaml, keys: set<string>): Option<map<string, Yaml>> {
    match v
    case Null => Some(map[])
    case Dict(m) => if m.Keys <= keys then Some(m) else None
    case _ => None
  }

  function IntOrNothing(n: int): Yaml { if n != 0 then Int(n) else Null }

  function TrueOrNothing(b: bool): Yaml { if b then Bool(true) else Null }

  function FlagOrNothing(b: Option<bool>): Yaml { if b.Some? then Bool(b.value) else Null }

  function ReadBool(v: Yaml): Option<bool> {
    match v
    case Null => Some(false)
    case Bool(b) => Some(b)
    case _ => None
  }

  // ------------------------------------------------ backup

  const BACKUP_KEYS := {"provider", "strategy", "id", "max_age"}

  datatype BackupBlock = BackupBlock(provider: string, spec: BackupSpec)

  function StrategyText(s: Strategy): string {
    match s
    case NoStrategy => ""
    case Latest => "latest"
    case Specific => "specific"
    case Unsupported(text) => text
  }

  function StrategyOf(text: string): Strategy {
    if text == "" then NoStrategy
    else if text == "latest" then Latest
    else if text == "specific" then Specific
    else Unsupported(text)
  }

  function BackupEntry(b: BackupBlock, sp: Spelling): string -> Yaml {
    key => if key == "provider" then TextOrNothing(b.provider)
           else if key == "strategy" then TextOrNothing(StrategyText(b.spec.strategy))
           else if key == "id" then TextOrNothing(b.spec.id)
           else if key == "max_age" then TimeOrNothing(b.spec.maxAge, sp)
           else Null
  }

  function ReadBackup(v: Yaml): Option<BackupBlock> {
    var m := Mapping(v, BACKUP_KEYS);
    if m.None? then None
    else
      var provider, strategy := ReadString(At(m.value, "provider")), ReadString(At(m.value, "strategy"));
      var id, maxAge := ReadString(At(m.value, "id")), ReadDuration(At(m.value, "max_age"));
      if provider.None? || strategy.None? || id.None? || maxAge.None? then None
      else Some(BackupBlock(provider.value, BackupSpec(StrategyOf(strategy.value), id.value, maxAge.value)))
  }

  /** It is not an unsupported strategy under a supported name. */
  predicate CanonicalStrategy(s: Strategy) { s.Unsupported? ==> s.text !in {"", "latest", "specific"} }

  lemma BackupSurvives(b: BackupBlock, sp: Spelling)
    ensures ReadBackup(Dict(Block(BACKUP_KEYS, BackupEntry(b, sp)))) == Some(b)
            <==> CanonicalStrategy(b.spec.strategy)
  {
    BlockReads(BACKUP_KEYS, BackupEntry(b, sp));
  }

  // ------------------------------------------------ restore

  const PLACE_KEYS := {"node", "network", "cpu_limit", "memory_limit", "timeout"}
  const SITING_KEYS := {"storage", "pool", "bridge", "bandwidth_limit"}
  const RESTORE_KEYS := PLACE_KEYS + SITING_KEYS

  /** Where the temporary workload's disks and interfaces go. */
  datatype Siting = Siting(storage: string, pool: string, bridge: string, bandwidth: int)

  datatype RestoreBlock = RestoreBlock(spec: RestoreSpec, siting: Siting)

  function RestoreEntry(r: RestoreBlock, sp: Spelling): string -> Yaml {
    key => if key in SITING_KEYS then SitingEntry(r.siting, key) else PlaceEntry(r.spec, sp, key)
  }

  function PlaceEntry(r: RestoreSpec, sp: Spelling, key: string): Yaml {
    if key == "node" then TextOrNothing(r.node)
    else if key == "network" then TextOrNothing(r.network)
    else if key == "cpu_limit" then IntOrNothing(r.cpuLimit)
    else if key == "memory_limit" then IntOrNothing(r.memoryLimitMB)
    else if key == "timeout" then TimeOrNothing(r.timeout, sp)
    else Null
  }

  function SitingEntry(s: Siting, key: string): Yaml {
    if key == "storage" then TextOrNothing(s.storage)
    else if key == "pool" then TextOrNothing(s.pool)
    else if key == "bridge" then TextOrNothing(s.bridge)
    else if key == "bandwidth_limit" then IntOrNothing(s.bandwidth)
    else Null
  }

  function ReadRestore(v: Yaml): Option<RestoreBlock> {
    var m := Mapping(v, RESTORE_KEYS);
    if m.None? then None
    else
      var spec, siting := ReadRestoreSpec(m.value), ReadSiting(m.value);
      if spec.None? || siting.None? then None else Some(RestoreBlock(spec.value, siting.value))
  }

  function ReadRestoreSpec(m: map<string, Yaml>): Option<RestoreSpec> {
    var node, network := ReadString(At(m, "node")), ReadString(At(m, "network"));
    var cpu, memory := ReadInt(At(m, "cpu_limit")), ReadInt(At(m, "memory_limit"));
    var timeout := ReadDuration(At(m, "timeout"));
    if node.None? || network.None? || cpu.None? || memory.None? || timeout.None? then None
    else Some(RestoreSpec(node.value, network.value, cpu.value, memory.value, timeout.value))
  }

  function ReadSiting(m: map<string, Yaml>): Option<Siting> {
    var storage, pool := ReadString(At(m, "storage")), ReadString(At(m, "pool"));
    var bridge, bandwidth := ReadString(At(m, "bridge")), ReadInt(At(m, "bandwidth_limit"));
    if storage.None? || pool.None? || bridge.None? || bandwidth.None? then None
    else Some(Siting(storage.value, pool.value, bridge.value, bandwidth.value))
  }

  lemma SitingSurvives(m: map<string, Yaml>, s: Siting)
    requires forall key :: key in SITING_KEYS ==> At(m, key) == SitingEntry(s, key)
    ensures ReadSiting(m) == Some(s)
  {
  }

  lemma PlaceSurvives(m: map<string, Yaml>, r: RestoreSpec, sp: Spelling)
    requires forall key :: key in PLACE_KEYS ==> At(m, key) == PlaceEntry(r, sp, key)
    ensures ReadRestoreSpec(m) == Some(r)
  {
  }

  lemma RestoreKeysAreApart()
    ensures PLACE_KEYS !! SITING_KEYS
  {
  }

  lemma RestoreEntriesAreFound(r: RestoreBlock, sp: Spelling)
    ensures var m := Block(RESTORE_KEYS, RestoreEntry(r, sp));
      && m.Keys <= RESTORE_KEYS
      && (forall key :: key in SITING_KEYS ==> At(m, key) == SitingEntry(r.siting, key))
      && (forall key :: key in PLACE_KEYS ==> At(m, key) == PlaceEntry(r.spec, sp, key))
  {
    BothHalvesAreRead(PLACE_KEYS, SITING_KEYS, RestoreEntry(r, sp));
    RestoreKeysAreApart();
  }

  lemma RestoreIsAssembled(m: map<string, Yaml>, r: RestoreBlock)
    requires m.Keys <= RESTORE_KEYS && ReadRestoreSpec(m) == Some(r.spec) && ReadSiting(m) == Some(r.siting)
    ensures ReadRestore(Dict(m)) == Some(r)
  {
    assert Mapping(Dict(m), RESTORE_KEYS) == Some(m);
  }

  lemma RestoreSurvives(r: RestoreBlock, sp: Spelling)
    ensures ReadRestore(Dict(Block(RESTORE_KEYS, RestoreEntry(r, sp)))) == Some(r)
  {
    var m := Block(RESTORE_KEYS, RestoreEntry(r, sp));
    RestoreEntriesAreFound(r, sp);
    SitingSurvives(m, r.siting);
    PlaceSurvives(m, r.spec, sp);
    RestoreIsAssembled(m, r);
  }

  // ------------------------------------------------ startup

  const STARTUP_KEYS := {"skip", "timeout", "wait_for_ip", "wait_for_agent", "ip"}

  function StartupEntry(s: StartupSpec, sp: Spelling): string -> Yaml {
    key => if key == "skip" then TrueOrNothing(s.skip)
           else if key == "timeout" then TimeOrNothing(s.timeout, sp)
           else if key == "wait_for_ip" then FlagOrNothing(s.waitForIP)
           else if key == "wait_for_agent" then FlagOrNothing(s.waitForAgent)
           else if key == "ip" then TextOrNothing(s.ip)
           else Null
  }

  function ReadStartup(v: Yaml): Option<StartupSpec> {
    var m := Mapping(v, STARTUP_KEYS);
    if m.None? then None
    else
      var skip, timeout := ReadBool(At(m.value, "skip")), ReadDuration(At(m.value, "timeout"));
      var forIP, forAgent := ReadFlag(At(m.value, "wait_for_ip")), ReadFlag(At(m.value, "wait_for_agent"));
      var ip := ReadString(At(m.value, "ip"));
      if skip.None? || timeout.None? || forIP.None? || forAgent.None? || ip.None? then None
      else Some(StartupSpec(skip.value, timeout.value, forIP.value, forAgent.value, ip.value))
  }

  /** A flag nobody set stays unset, and one set to false stays false. */
  lemma StartupSurvives(s: StartupSpec, sp: Spelling)
    ensures ReadStartup(Dict(Block(STARTUP_KEYS, StartupEntry(s, sp)))) == Some(s)
  {
    BlockReads(STARTUP_KEYS, StartupEntry(s, sp));
  }

  // ------------------------------------------------ cleanup

  const CLEANUP_KEYS := {"always", "keep_on_failure"}

  function CleanupEntry(c: CleanupSpec): string -> Yaml {
    key => if key == "always" then FlagOrNothing(c.always)
           else if key == "keep_on_failure" then TrueOrNothing(c.keepOnFailure)
           else Null
  }

  function ReadCleanup(v: Yaml): Option<CleanupSpec> {
    var m := Mapping(v, CLEANUP_KEYS);
    if m.None? then None
    else
      var always, keep := ReadFlag(At(m.value, "always")), ReadBool(At(m.value, "keep_on_failure"));
      if always.None? || keep.None? then None else Some(CleanupSpec(always.value, keep.value))
  }

  lemma CleanupSurvives(c: CleanupSpec)
    ensures ReadCleanup(Dict(Block(CLEANUP_KEYS, CleanupEntry(c)))) == Some(c)
  {
    BlockReads(CLEANUP_KEYS, CleanupEntry(c));
  }

  // ------------------------------------------------ workload

  const WORKLOAD_KEYS := {"provider", "id", "name"}

  datatype Workload = Workload(provider: string, id: string, name: string)

  function WorkloadEntry(w: Workload): string -> Yaml {
    key => if key == "provider" then Str(w.provider)
           else if key == "id" then Str(w.id)
           else if key == "name" then TextOrNothing(w.name)
           else Null
  }

  function ReadWorkload(v: Yaml): Option<Workload> {
    var m := Mapping(v, WORKLOAD_KEYS);
    if m.None? then None
    else
      var provider, id := ReadString(At(m.value, "provider")), ReadString(At(m.value, "id"));
      var name := ReadString(At(m.value, "name"));
      if provider.None? || id.None? || name.None? then None else Some(Workload(provider.value, id.value, name.value))
  }

  lemma WorkloadSurvives(w: Workload)
    ensures ReadWorkload(Dict(Block(WORKLOAD_KEYS, WorkloadEntry(w)))) == Some(w)
  {
    BlockReads(WORKLOAD_KEYS, WorkloadEntry(w));
  }

  // ------------------------------------------------ tags

  function WriteTags(tags: seq<string>): Yaml {
    if tags != [] then List(Each(tags, t => Str(t))) else Null
  }

  function ReadTags(v: Yaml): Option<seq<string>> {
    match v
    case Null => Some([])
    case List(items) => Every(items, t => ReadString(t))
    case _ => None
  }

  lemma TagsSurvive(tags: seq<string>)
    ensures ReadTags(WriteTags(tags)) == Some(tags)
  {
    EachSurvives(tags, t => Str(t), t => ReadString(t));
  }

  // ------------------------------------------------ the plan

  /** What a plan says about itself and about when it is drilled. */
  datatype Notes = Notes(description: string, tags: seq<string>, schedule: string, timezone: string)

  /** A whole plan, with the parts only other programs read. */
  datatype PlanFile = PlanFile(plan: Plan, backupProvider: string, siting: Siting, notes: Notes)

  function WorkloadOf(p: Plan): Workload { Workload(p.workloadProvider, p.workloadId, p.workloadName) }

  function BackupOf(f: PlanFile): BackupBlock { BackupBlock(f.backupProvider, f.plan.backup) }

  function RestoreOf(f: PlanFile): RestoreBlock { RestoreBlock(f.plan.restore, f.siting) }

  const NOTE_KEYS := {"description", "tags", "schedule", "schedule_timezone"}
  const PART_KEYS := {"name", "workload", "backup", "restore", "startup", "checks", "cleanup", "rto_target"}
  const PLAN_KEYS := PART_KEYS + NOTE_KEYS

  function PlanEntry(f: PlanFile, sp: Spelling): string -> Yaml {
    key => if key in NOTE_KEYS then NoteEntry(f.notes, key) else PartEntry(f, sp, key)
  }

  function NoteEntry(n: Notes, key: string): Yaml {
    if key == "description" then TextOrNothing(n.description)
    else if key == "tags" then WriteTags(n.tags)
    else if key == "schedule" then TextOrNothing(n.schedule)
    else if key == "schedule_timezone" then TextOrNothing(n.timezone)
    else Null
  }

  function PartEntry(f: PlanFile, sp: Spelling, key: string): Yaml {
    if key == "name" then Str(f.plan.name)
    else if key == "workload" then Dict(Block(WORKLOAD_KEYS, WorkloadEntry(WorkloadOf(f.plan))))
    else if key == "backup" then Dict(Block(BACKUP_KEYS, BackupEntry(BackupOf(f), sp)))
    else if key == "restore" then Dict(Block(RESTORE_KEYS, RestoreEntry(RestoreOf(f), sp)))
    else if key == "startup" then Dict(Block(STARTUP_KEYS, StartupEntry(f.plan.startup, sp)))
    else if key == "checks" then List(MarshalAll(f.plan.checks, sp))
    else if key == "cleanup" then Dict(Block(CLEANUP_KEYS, CleanupEntry(f.plan.cleanup)))
    else if key == "rto_target" then TimeOrNothing(f.plan.rtoTarget, sp)
    else Null
  }

  function WritePlan(f: PlanFile, sp: Spelling): Yaml { Dict(Block(PLAN_KEYS, PlanEntry(f, sp))) }

  function ReadChecks(v: Yaml): Option<seq<CheckSpec>> {
    match v
    case Null => Some([])
    case List(items) => UnmarshalAll(items)
    case _ => None
  }

  function ReadNotes(m: map<string, Yaml>): Option<Notes> {
    var description, tags := ReadString(At(m, "description")), ReadTags(At(m, "tags"));
    var schedule, timezone := ReadString(At(m, "schedule")), ReadString(At(m, "schedule_timezone"));
    if description.None? || tags.None? || schedule.None? || timezone.None? then None
    else Some(Notes(description.value, tags.value, schedule.value, timezone.value))
  }

  /** What each block of a plan document reads as, or nothing where it cannot. */
  datatype PlanParts = PlanParts(
    name: Option<string>, workload: Option<Workload>, backup: Option<BackupBlock>,
    restore: Option<RestoreBlock>, startup: Option<StartupSpec>, checks: Option<seq<CheckSpec>>,
    cleanup: Option<CleanupSpec>, rtoTarget: Option<int>, notes: Option<Notes>)

  function ReadParts(m: map<string, Yaml>): PlanParts {
    PlanParts(ReadString(At(m, "name")), ReadWorkload(At(m, "workload")), ReadBackup(At(m, "backup")),
              ReadRestore(At(m, "restore")), ReadStartup(At(m, "startup")), ReadChecks(At(m, "checks")),
              ReadCleanup(At(m, "cleanup")), ReadDuration(At(m, "rto_target")), ReadNotes(m))
  }

  function Assembled(parts: PlanParts): Option<PlanFile> {
    match parts
    case PlanParts(Some(name), Some(workload), Some(backup), Some(restore), Some(startup),
                   Some(checks), Some(cleanup), Some(rtoTarget), Some(notes)) =>
      Some(PlanFile(Plan(name, workload.provider, workload.id, workload.name,
                         backup.spec, restore.spec, startup, checks, cleanup, rtoTarget),
                    backup.provider, restore.siting, notes))
    case _ => None
  }

  function ReadPlan(v: Yaml): Option<PlanFile> {
    var m := Mapping(v, PLAN_KEYS);
    if m.None? then None else Assembled(ReadParts(m.value))
  }

  /** A plan a document can say: its checks can be said, and no strategy is
      unsupported under a supported name. */
  predicate SayablePlan(p: Plan) {
    CanonicalStrategy(p.backup.strategy) && forall i :: 0 <= i < |p.checks| ==> Sayable(p.checks[i])
  }

  lemma WorkloadIsRead(f: PlanFile, sp: Spelling)
    ensures ReadWorkload(PartEntry(f, sp, "workload")) == Some(WorkloadOf(f.plan))
  {
    WorkloadSurvives(WorkloadOf(f.plan));
  }

  lemma BackupIsRead(f: PlanFile, sp: Spelling)
    ensures ReadBackup(PartEntry(f, sp, "backup")) == Some(BackupOf(f))
            <==> CanonicalStrategy(f.plan.backup.strategy)
  {
    BackupSurvives(BackupOf(f), sp);
  }

  lemma RestoreIsRead(f: PlanFile, sp: Spelling)
    ensures ReadRestore(PartEntry(f, sp, "restore")) == Some(RestoreOf(f))
  {
    RestoreSurvives(RestoreOf(f), sp);
  }

  lemma StartupIsRead(f: PlanFile, sp: Spelling)
    ensures ReadStartup(PartEntry(f, sp, "startup")) == Some(f.plan.startup)
  {
    StartupSurvives(f.plan.startup, sp);
  }

  lemma ListIsRead(checks: seq<CheckSpec>, sp: Spelling)
    ensures ReadChecks(List(MarshalAll(checks, sp))) == Some(checks)
            <==> forall i :: 0 <= i < |checks| ==> Sayable(checks[i])
  {
    ChecksSurvive(checks, sp);
  }

  lemma ChecksAreRead(f: PlanFile, sp: Spelling)
    ensures ReadChecks(PartEntry(f, sp, "checks")) == Some(f.plan.checks)
            <==> forall i :: 0 <= i < |f.plan.checks| ==> Sayable(f.plan.checks[i])
  {
    ListIsRead(f.plan.checks, sp);
  }

  lemma CleanupIsRead(f: PlanFile, sp: Spelling)
    ensures ReadCleanup(PartEntry(f, sp, "cleanup")) == Some(f.plan.cleanup)
  {
    CleanupSurvives(f.plan.cleanup);
  }

  lemma NameIsRead(f: PlanFile, sp: Spelling)
    ensures ReadString(PartEntry(f, sp, "name")) == Some(f.plan.name)
  {
  }

  lemma TargetIsRead(f: PlanFile, sp: Spelling)
    ensures ReadDuration(PartEntry(f, sp, "rto_target")) == Some(f.plan.rtoTarget)
  {
    assert PartEntry(f, sp, "rto_target") == TimeOrNothing(f.plan.rtoTarget, sp);
  }

  lemma NotesAreRead(m: map<string, Yaml>, n: Notes)
    requires forall key :: key in NOTE_KEYS ==> At(m, key) == NoteEntry(n, key)
    ensures ReadNotes(m) == Some(n)
  {
    TagsSurvive(n.tags);
  }

  lemma KeysAreApart()
    ensures PART_KEYS !! NOTE_KEYS
  {
  }

  lemma EntriesAreFound(f: PlanFile, sp: Spelling)
    ensures var m := Block(PLAN_KEYS, PlanEntry(f, sp));
      && m.Keys <= PLAN_KEYS
      && (forall key :: key in NOTE_KEYS ==> At(m, key) == NoteEntry(f.notes, key))
      && (forall key :: key in PART_KEYS ==> At(m, key) == PartEntry(f, sp, key))
  {
    BothHalvesAreRead(PART_KEYS, NOTE_KEYS, PlanEntry(f, sp));
    KeysAreApart();
  }

  lemma EveryPartIsFound(f: PlanFile, sp: Spelling)
    ensures var m := Block(PLAN_KEYS, PlanEntry(f, sp));
      && m.Keys <= PLAN_KEYS && ReadNotes(m) == Some(f.notes)
      && At(m, "name") == PartEntry(f, sp, "name") && At(m, "rto_target") == PartEntry(f, sp, "rto_target")
      && At(m, "workload") == PartEntry(f, sp, "workload") && At(m, "backup") == PartEntry(f, sp, "backup")
      && At(m, "restore") == PartEntry(f, sp, "restore") && At(m, "startup") == PartEntry(f, sp, "startup")
      && At(m, "checks") == PartEntry(f, sp, "checks") && At(m, "cleanup") == PartEntry(f, sp, "cleanup")
  {
    EntriesAreFound(f, sp);
    NotesAreRead(Block(PLAN_KEYS, PlanEntry(f, sp)), f.notes);
  }

  /** With everything else read as it was, it is the backup and the checks that
      decide. */
  lemma AllAreAssembled(f: PlanFile, parts: PlanParts)
    requires parts.name == Some(f.plan.name) && parts.rtoTarget == Some(f.plan.rtoTarget)
    requires parts.workload == Some(WorkloadOf(f.plan)) && parts.restore == Some(RestoreOf(f))
    requires parts.startup == Some(f.plan.startup) && parts.cleanup == Some(f.plan.cleanup)
    requires parts.notes == Some(f.notes)
    ensures Assembled(parts) == Some(f)
            <==> parts.backup == Some(BackupOf(f)) && parts.checks == Some(f.plan.checks)
  {
  }

  lemma PartsDecide(f: PlanFile, sp: Spelling)
    ensures var m := Block(PLAN_KEYS, PlanEntry(f, sp));
      m.Keys <= PLAN_KEYS && (Assembled(ReadParts(m)) == Some(f) <==> SayablePlan(f.plan))
  {
    EveryPartIsFound(f, sp);
    NameIsRead(f, sp);
    TargetIsRead(f, sp);
    WorkloadIsRead(f, sp);
    BackupIsRead(f, sp);
    RestoreIsRead(f, sp);
    StartupIsRead(f, sp);
    ChecksAreRead(f, sp);
    CleanupIsRead(f, sp);
    AllAreAssembled(f, ReadParts(Block(PLAN_KEYS, PlanEntry(f, sp))));
  }

  lemma ReadsFromItsParts(m: map<string, Yaml>, r: Option<PlanFile>)
    requires m.Keys <= PLAN_KEYS && Assembled(ReadParts(m)) == r
    ensures ReadPlan(Dict(m)) == r
  {
    assert Mapping(Dict(m), PLAN_KEYS) == Some(m);
  }

  /** Theorem: a plan read back from the document it was written to is the plan
      that was written, exactly for the plans a document can say. */
  lemma PlanSurvives(f: PlanFile, sp: Spelling)
    ensures ReadPlan(WritePlan(f, sp)) == Some(f) <==> SayablePlan(f.plan)
  {
    var m := Block(PLAN_KEYS, PlanEntry(f, sp));
    PartsDecide(f, sp);
    ReadsFromItsParts(m, Assembled(ReadParts(m)));
  }

  /** A block that is missing reads as one in which nothing is said. */
  lemma NothingReadsAsNothing()
    ensures ReadWorkload(Null) == Some(Workload("", "", ""))
    ensures ReadTags(Null) == Some([]) && ReadChecks(Null) == Some([])
    ensures ReadBackup(Null) == Some(BackupBlock("", BackupSpec(NoStrategy, "", 0)))
    ensures ReadRestore(Null) == Some(RestoreBlock(RestoreSpec("", "", 0, 0, 0), Siting("", "", "", 0)))
    ensures ReadStartup(Null) == Some(StartupSpec(false, 0, None, None, ""))
    ensures ReadCleanup(Null) == Some(CleanupSpec(None, false))
    ensures ReadBool(Null) == Some(false) && ReadBool(Str("true")) == None
  {
  }

  /** And a document that uses a key the program does not know is refused. */
  lemma UnknownKeyIsRefused(m: map<string, Yaml>, key: string)
    requires key in m
    requires key !in {"name", "description", "tags", "schedule", "schedule_timezone", "workload", "backup",
                      "restore", "startup", "checks", "cleanup", "rto_target"}
    ensures ReadPlan(Dict(m)) == None
  {
    assert key in m.Keys && key !in PLAN_KEYS;
  }

  lemma UnknownKeyInABlockIsRefused(m: map<string, Yaml>, key: string)
    requires key in m
    ensures key !in {"provider", "id", "name"} ==> ReadWorkload(Dict(m)) == None
    ensures key !in {"provider", "strategy", "id", "max_age"} ==> ReadBackup(Dict(m)) == None
    ensures key !in {"always", "keep_on_failure"} ==> ReadCleanup(Dict(m)) == None
  {
    assert key in m.Keys;
  }

  lemma UnknownKeyInALongBlockIsRefused(m: map<string, Yaml>, key: string)
    requires key in m
    ensures key !in {"skip", "timeout", "wait_for_ip", "wait_for_agent", "ip"} ==> ReadStartup(Dict(m)) == None
    ensures (key !in {"node", "network", "cpu_limit", "memory_limit", "timeout"}
             && key !in {"storage", "pool", "bridge", "bandwidth_limit"}) ==> ReadRestore(Dict(m)) == None
  {
    assert key in m.Keys;
  }

  /** What stands under the keys of a plan, and the words it uses. */
  lemma NotesSay(n: Notes)
    ensures NoteEntry(n, "schedule") == (if n.schedule != "" then Str(n.schedule) else Null)
    ensures NoteEntry(n, "schedule_timezone") == (if n.timezone != "" then Str(n.timezone) else Null)
    ensures NoteEntry(n, "description") == (if n.description != "" then Str(n.description) else Null)
    ensures n.tags == [] ==> NoteEntry(n, "tags") == Null
  {
  }

  lemma PartsSay(f: PlanFile, sp: Spelling)
    ensures PartEntry(f, sp, "name") == Str(f.plan.name)
    ensures PartEntry(f, sp, "workload").Dict? && PartEntry(f, sp, "backup").Dict?
    ensures PartEntry(f, sp, "restore").Dict? && PartEntry(f, sp, "startup").Dict?
  {
  }

  lemma LastPartsSay(f: PlanFile, sp: Spelling)
    ensures f.plan.rtoTarget != 0 ==>
              PartEntry(f, sp, "rto_target") == Span(sp.duration(f.plan.rtoTarget), f.plan.rtoTarget)
    ensures PartEntry(f, sp, "checks").List? && PartEntry(f, sp, "cleanup").Dict?
  {
  }

  lemma BlocksSay(w: Workload, b: BackupBlock, c: CleanupSpec, sp: Spelling)
    ensures var m := Block(WORKLOAD_KEYS, WorkloadEntry(w));
      At(m, "provider") == Str(w.provider) && At(m, "id") == Str(w.id)
    ensures var m := Block(BACKUP_KEYS, BackupEntry(b, sp));
      && (b.spec.strategy == Latest ==> At(m, "strategy") == Str("latest"))
      && (b.spec.strategy == Specific ==> At(m, "strategy") == Str("specific"))
      && (b.spec.id != "" ==> At(m, "id") == Str(b.spec.id))
      && (b.spec.maxAge != 0 ==> At(m, "max_age") == Span(sp.duration(b.spec.maxAge), b.spec.maxAge))
    ensures var m := Block(CLEANUP_KEYS, CleanupEntry(c));
      && (c.always.Some? ==> At(m, "always") == Bool(c.always.value))
      && (c.keepOnFailure ==> At(m, "keep_on_failure") == Bool(true))
  {
    BlockReads(WORKLOAD_KEYS, WorkloadEntry(w));
    BlockReads(BACKUP_KEYS, BackupEntry(b, sp));
    BlockReads(CLEANUP_KEYS, CleanupEntry(c));
  }

  lemma StartupSays(s: StartupSpec, sp: Spelling)
    ensures var m := Block(STARTUP_KEYS, StartupEntry(s, sp));
      && (s.skip ==> At(m, "skip") == Bool(true))
      && (s.timeout != 0 ==> At(m, "timeout") == Span(sp.duration(s.timeout), s.timeout))
      && (s.waitForIP.Some? ==> At(m, "wait_for_ip") == Bool(s.waitForIP.value))
      && (s.waitForAgent.Some? ==> At(m, "wait_for_agent") == Bool(s.waitForAgent.value))
      && (s.ip != "" ==> At(m, "ip") == Str(s.ip))
  {
    BlockReads(STARTUP_KEYS, StartupEntry(s, sp));
  }

  lemma RestoreSays(r: RestoreBlock, sp: Spelling)
    ensures var m := Block(RESTORE_KEYS, RestoreEntry(r, sp));
      && (r.spec.network != "" ==> At(m, "network") == Str(r.spec.network))
      && (r.spec.node != "" ==> At(m, "node") == Str(r.spec.node))
      && (r.spec.cpuLimit != 0 ==> At(m, "cpu_limit") == Int(r.spec.cpuLimit))
      && (r.spec.memoryLimitMB != 0 ==> At(m, "memory_limit") == Int(r.spec.memoryLimitMB))
      && (r.siting.storage != "" ==> At(m, "storage") == Str(r.siting.storage))
      && (r.siting.pool != "" ==> At(m, "pool") == Str(r.siting.pool))
      && (r.siting.bridge != "" ==> At(m, "bridge") == Str(r.siting.bridge))
      && (r.siting.bandwidth != 0 ==> At(m, "bandwidth_limit") == Int(r.siting.bandwidth))
  {
    RestoreEntriesAreFound(r, sp);
  }

  lemma DefaultsStaySayable(p: Plan)
    requires SayablePlan(p)
    ensures SayablePlan(Defaulted(p))
  {
    forall i | 0 <= i < |p.checks| ensures Sayable(Defaulted(p).checks[i]) {
      DefaultsKeepTheConfig(p.checks[i]);
    }
  }

  /** Theorem: the snapshot a drill is queued with executes as the plan it was
      taken from. It reads back as it was, the defaults applied to it again
      change nothing, and neither changes what a check is run with. */
  lemma SnapshotExecutesTheSame(f: PlanFile, sp: Spelling)
    requires SayablePlan(f.plan)
    ensures var p, q := f.plan, Defaulted(f.plan);
      && ReadPlan(WritePlan(f.(plan := q), sp)) == Some(f.(plan := q))
      && Defaulted(q) == q
      && forall i :: 0 <= i < |p.checks| ==> q.checks[i].ToCore() == p.checks[i].ToCore()
  {
    var p := f.plan;
    DefaultsStaySayable(p);
    PlanSurvives(f.(plan := Defaulted(p)), sp);
    DefaultsAreIdempotent(p);
    forall i | 0 <= i < |p.checks| ensures Defaulted(p).checks[i].ToCore() == p.checks[i].ToCore() {
      DefaultsKeepTheConfig(p.checks[i]);
    }
  }
}

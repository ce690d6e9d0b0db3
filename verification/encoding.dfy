/** The settings of a job as the two-level dictionary the stages set and delete keys in and the store keeps as text.
  Namespaces are written without the prefix they all share. Lists are kept as their printed form; how a list is
  printed and read back is a `Codec`, of which only is used that reading undoes printing. */
module Encoding {
  import opened Records
  import opened RunSettings
  import opened ContextRows
  import opened Keys
  import Job = JobState

  datatype Codec = Codec(
    printNodes: seq<Node> -> string, readNodes: string -> Option<seq<Node>>,
    printRecs: seq<Rec> -> string, readRecs: string -> Option<seq<Rec>>)

  ghost predicate Faithful(c: Codec) {
    && (forall ns :: c.readNodes(c.printNodes(ns)) == Some(ns))
    && (forall ps :: c.readRecs(c.printRecs(ps)) == Some(ps))
  }

  // ---------------------------------------------------------------------------------------------------------
  // Names

  const RUN := "stages/run"

  function Schema(k: Key): string {
    match k
    case ConfigureDone => "stages/configure"
    case CreateDone | CreatedNodes | FailedNodes => "stages/create"
    case BootStarted | BootstrappedNodes | BootstrapDone => "stages/bootstrap"
    case SystemId => "system"
    case ExecutedProcs => "stages/execute"
    case RunsLeft | ErrorNodes | FinishedNodes | InitialNumbfile => RUN
    case Transformed => "stages/transform"
    case Converged => "stages/converge"
    case RunFinished => "stages/destroy"
    case _ => "stages/schedule"
  }

  function Name(k: Key): string {
    match k
    case ConfigureDone => "configure_done"
    case CreateDone => "create_done"
    case CreatedNodes => "created_nodes"
    case FailedNodes => "failed_nodes"
    case BootStarted => "started"
    case BootstrappedNodes => "bootstrapped_nodes"
    case BootstrapDone => "bootstrap_done"
    case SystemId => "id"
    case ScheduleStarted => "schedule_started"
    case ScheduleCompleted => "schedule_completed"
    case ScheduleIndex => "schedule_index"
    case TotalProcesses => "total_processes"
    case TotalScheduledProcs => "total_scheduled_procs"
    case TotalRescheduledProcs => "total_rescheduled_procs"
    case ScheduledNodes => "scheduled_nodes"
    case RescheduledNodes => "rescheduled_nodes"
    case CurrentProcesses => "current_processes"
    case AllProcesses => "all_processes"
    case Procs2bRescheduled => "procs_2b_rescheduled"
    case ExecutedProcs => "executed_procs"
    case RunsLeft => "runs_left"
    case ErrorNodes => "error_nodes"
    case FinishedNodes => "finished_nodes"
    case InitialNumbfile => "initial_numbfile"
    case Transformed => "transformed"
    case Converged => "converged"
    case RunFinished => "run_finished"
    case ScheduledStarted => "scheduled_started"
  }

  predicate IsList(k: Key) {
    k in {CreatedNodes, FailedNodes, BootstrappedNodes, ScheduledNodes, RescheduledNodes, CurrentProcesses,
          AllProcesses, Procs2bRescheduled, ExecutedProcs, FinishedNodes}
  }

  // What the stage schemas declare

  const CREATE_KEYS: map<string, ParamType> := map[
    "create_done" := NUMERIC, "failed_nodes" := STRING, "group_id" := STRING, "vm_size" := STRING,
    "vm_image" := STRING, "security_group" := STRLIST, "group_id_dir" := STRING, "cloud_sleep_interval" := NUMERIC,
    "custom_prompt" := STRING, "nectar_username" := STRING, "nectar_password" := STRING, "created_nodes" := STRING]

  const BOOTSTRAP_KEYS: map<string, ParamType> := map[
    "started" := NUMERIC, "bootstrapped_nodes" := STRING, "bootstrap_done" := NUMERIC]

  const SYSTEM_KEYS: map<string, ParamType> := map[
    "platform" := STRING, "contextid" := NUMERIC, "parentcontextid" := NUMERIC, "random_numbers" := STRING,
    "system" := STRING, "id" := NUMERIC, "max_seed_int" := NUMERIC, "metadata_builder" := STRING]

  const SCHEDULE_KEYS: map<string, ParamType> := map[
    "rescheduled_nodes" := STRING, "procs_2b_rescheduled" := STRING, "total_rescheduled_procs" := NUMERIC,
    "total_scheduled_procs" := NUMERIC, "schedule_index" := NUMERIC, "current_processes" := STRING,
    "all_processes" := STRING, "schedule_started" := NUMERIC, "total_processes" := NUMERIC,
    "scheduled_nodes" := STRING, "schedule_completed" := NUMERIC]

  const RUN_KEYS: map<string, ParamType> := map[
    "runs_left" := NUMERIC, "error_nodes" := NUMERIC, "initial_numbfile" := NUMERIC, "rand_index" := NUMERIC,
    "finished_nodes" := STRING, "run_map" := STRING]

  const STAGES: Schemas := map[
    "stages/configure" := map["configure_done" := NUMERIC],
    "stages/create" := CREATE_KEYS,
    "stages/bootstrap" := BOOTSTRAP_KEYS,
    "system" := SYSTEM_KEYS,
    "stages/schedule" := SCHEDULE_KEYS,
    "stages/execute" := map["executed_procs" := STRING],
    "stages/run" := RUN_KEYS,
    "stages/transform" := map["transformed" := NUMERIC],
    "stages/converge" := map["converged" := NUMERIC, "criterion" := STRING],
    "stages/destroy" := map["run_finished" := NUMERIC]
  ]

  /** No two keys have the same name. */
  lemma NamesDiffer()
    ensures forall j: Key, k: Key :: Name(j) == Name(k) ==> j == k
  {
  }

  // ---------------------------------------------------------------------------------------------------------
  // Values

  function Num(o: Option<int>): Option<Value> {
    match o
    case Some(n) => Some(Int(n))
    case None => None
  }

  function Nodes(c: Codec, o: Option<seq<Node>>): Option<Value> {
    match o
    case Some(ns) => Some(Str(c.printNodes(ns)))
    case None => None
  }

  function Recs(c: Codec, o: Option<seq<Rec>>): Option<Value> {
    match o
    case Some(ps) => Some(Str(c.printRecs(ps)))
    case None => None
  }

  /** What a key holds. */
  function ValueAt(c: Codec, s: Job.Settings, k: Key): Option<Value> {
    match k
    case ConfigureDone => Num(s.configureDone)
    case CreateDone => Num(s.createDone)
    case CreatedNodes => Nodes(c, s.createdNodes)
    case FailedNodes => Nodes(c, s.failedNodes)
    case BootStarted => Num(s.bootStarted)
    case BootstrappedNodes => Nodes(c, s.bootstrappedNodes)
    case BootstrapDone => Num(s.bootstrapDone)
    case SystemId => Num(s.systemId)
    case ScheduleStarted => Num(s.scheduleStarted)
    case ScheduleCompleted => Num(s.scheduleCompleted)
    case ScheduleIndex => Num(s.scheduleIndex)
    case TotalProcesses => Num(s.totalProcesses)
    case TotalScheduledProcs => Num(s.totalScheduledProcs)
    case TotalRescheduledProcs => Num(s.totalRescheduledProcs)
    case ScheduledNodes => Nodes(c, s.scheduledNodes)
    case RescheduledNodes => Nodes(c, s.rescheduledNodes)
    case CurrentProcesses => Recs(c, s.currentProcesses)
    case AllProcesses => Recs(c, s.allProcesses)
    case Procs2bRescheduled => Recs(c, s.procs2bRescheduled)
    case ExecutedProcs => Recs(c, s.executedProcs)
    case RunsLeft => Num(s.runsLeft)
    case ErrorNodes => Num(s.errorNodes)
    case FinishedNodes => Recs(c, s.finishedNodes)
    case InitialNumbfile => Num(s.initialNumbfile)
    case Transformed => Num(s.transformed)
    case Converged => Num(s.converged)
    case RunFinished => Num(s.runFinished)
    case ScheduledStarted => Num(s.scheduledStarted)
  }

  function ReadNum(o: Option<Value>): Option<int> {
    match o
    case Some(Int(n)) => Some(n)
    case _ => None
  }

  function ReadNodes(c: Codec, o: Option<Value>): Option<seq<Node>> {
    match o
    case Some(Str(t)) => c.readNodes(t)
    case _ => None
  }

  function ReadRecs(c: Codec, o: Option<Value>): Option<seq<Rec>> {
    match o
    case Some(Str(t)) => c.readRecs(t)
    case _ => None
  }

  function At(rs: Settings, k: Key): Option<Value> {
    Lookup(rs, Schema(k), Name(k))
  }

  /** What the stages read from a dictionary. */
  function Decode(c: Codec, rs: Settings): Job.Settings {
    Job.Settings(
      ReadNum(At(rs, ConfigureDone)),
      ReadNum(At(rs, CreateDone)), ReadNodes(c, At(rs, CreatedNodes)), ReadNodes(c, At(rs, FailedNodes)),
      ReadNum(At(rs, BootStarted)), ReadNodes(c, At(rs, BootstrappedNodes)), ReadNum(At(rs, BootstrapDone)),
      ReadNum(At(rs, SystemId)),
      ReadNum(At(rs, ScheduleStarted)), ReadNum(At(rs, ScheduleCompleted)), ReadNum(At(rs, ScheduleIndex)),
      ReadNum(At(rs, TotalProcesses)), ReadNum(At(rs, TotalScheduledProcs)), ReadNum(At(rs, TotalRescheduledProcs)),
      ReadNodes(c, At(rs, ScheduledNodes)), ReadNodes(c, At(rs, RescheduledNodes)),
      ReadRecs(c, At(rs, CurrentProcesses)), ReadRecs(c, At(rs, AllProcesses)), ReadRecs(c, At(rs, Procs2bRescheduled)),
      ReadRecs(c, At(rs, ExecutedProcs)),
      ReadNum(At(rs, RunsLeft)), ReadNum(At(rs, ErrorNodes)), ReadRecs(c, At(rs, FinishedNodes)),
      ReadNum(At(rs, InitialNumbfile)),
      ReadNum(At(rs, Transformed)), ReadNum(At(rs, Converged)), ReadNum(At(rs, RunFinished)),
      ReadNum(At(rs, ScheduledStarted)))
  }

  /** The dictionary holds the settings. */
  ghost predicate Holds(c: Codec, rs: Settings, s: Job.Settings) {
    forall k: Key {:trigger ValueAt(c, s, k)} :: At(rs, k) == ValueAt(c, s, k)
  }

  lemma SetUpValues(c: Codec, s: Job.Settings)
    ensures ValueAt(c, s, ConfigureDone) == Num(s.configureDone)
    ensures ValueAt(c, s, CreateDone) == Num(s.createDone)
    ensures ValueAt(c, s, BootStarted) == Num(s.bootStarted)
    ensures ValueAt(c, s, BootstrapDone) == Num(s.bootstrapDone)
    ensures ValueAt(c, s, SystemId) == Num(s.systemId)
    ensures ValueAt(c, s, CreatedNodes) == Nodes(c, s.createdNodes)
    ensures ValueAt(c, s, FailedNodes) == Nodes(c, s.failedNodes)
    ensures ValueAt(c, s, BootstrappedNodes) == Nodes(c, s.bootstrappedNodes)
  {
  }

  lemma DecodeSetUp(c: Codec, rs: Settings, s: Job.Settings)
    requires Faithful(c) && Holds(c, rs, s)
    ensures var d := Decode(c, rs);
            && d.configureDone == s.configureDone && d.createDone == s.createDone
            && d.createdNodes == s.createdNodes && d.failedNodes == s.failedNodes
            && d.bootStarted == s.bootStarted && d.bootstrappedNodes == s.bootstrappedNodes
            && d.bootstrapDone == s.bootstrapDone && d.systemId == s.systemId
  {
    hide At, ValueAt;
    SetUpValues(c, s);
  }

  lemma ScheduleValues(c: Codec, s: Job.Settings)
    ensures ValueAt(c, s, ScheduleStarted) == Num(s.scheduleStarted)
    ensures ValueAt(c, s, ScheduleCompleted) == Num(s.scheduleCompleted)
    ensures ValueAt(c, s, ScheduleIndex) == Num(s.scheduleIndex)
    ensures ValueAt(c, s, TotalProcesses) == Num(s.totalProcesses)
    ensures ValueAt(c, s, TotalScheduledProcs) == Num(s.totalScheduledProcs)
    ensures ValueAt(c, s, TotalRescheduledProcs) == Num(s.totalRescheduledProcs)
    ensures ValueAt(c, s, ScheduledStarted) == Num(s.scheduledStarted)
    ensures ValueAt(c, s, ScheduledNodes) == Nodes(c, s.scheduledNodes)
    ensures ValueAt(c, s, RescheduledNodes) == Nodes(c, s.rescheduledNodes)
  {
  }

  lemma DecodeSchedule(c: Codec, rs: Settings, s: Job.Settings)
    requires Faithful(c) && Holds(c, rs, s)
    ensures var d := Decode(c, rs);
            && d.scheduleStarted == s.scheduleStarted && d.scheduleCompleted == s.scheduleCompleted
            && d.scheduleIndex == s.scheduleIndex && d.totalProcesses == s.totalProcesses
            && d.totalScheduledProcs == s.totalScheduledProcs && d.totalRescheduledProcs == s.totalRescheduledProcs
            && d.scheduledNodes == s.scheduledNodes && d.rescheduledNodes == s.rescheduledNodes
            && d.scheduledStarted == s.scheduledStarted
  {
    hide At, ValueAt;
    ScheduleValues(c, s);
  }

  lemma TableValues(c: Codec, s: Job.Settings)
    ensures ValueAt(c, s, CurrentProcesses) == Recs(c, s.currentProcesses)
    ensures ValueAt(c, s, AllProcesses) == Recs(c, s.allProcesses)
    ensures ValueAt(c, s, Procs2bRescheduled) == Recs(c, s.procs2bRescheduled)
    ensures ValueAt(c, s, ExecutedProcs) == Recs(c, s.executedProcs)
    ensures ValueAt(c, s, FinishedNodes) == Recs(c, s.finishedNodes)
  {
  }

  lemma CounterValues(c: Codec, s: Job.Settings)
    ensures ValueAt(c, s, RunsLeft) == Num(s.runsLeft)
    ensures ValueAt(c, s, ErrorNodes) == Num(s.errorNodes)
    ensures ValueAt(c, s, InitialNumbfile) == Num(s.initialNumbfile)
    ensures ValueAt(c, s, Transformed) == Num(s.transformed)
    ensures ValueAt(c, s, Converged) == Num(s.converged)
    ensures ValueAt(c, s, RunFinished) == Num(s.runFinished)
  {
  }

  lemma DecodeRun(c: Codec, rs: Settings, s: Job.Settings)
    requires Faithful(c) && Holds(c, rs, s)
    ensures var d := Decode(c, rs);
            && d.currentProcesses == s.currentProcesses && d.allProcesses == s.allProcesses
            && d.procs2bRescheduled == s.procs2bRescheduled && d.executedProcs == s.executedProcs
            && d.runsLeft == s.runsLeft && d.errorNodes == s.errorNodes && d.finishedNodes == s.finishedNodes
            && d.initialNumbfile == s.initialNumbfile
            && d.transformed == s.transformed && d.converged == s.converged && d.runFinished == s.runFinished
  {
    hide At, ValueAt;
    TableValues(c, s);
    CounterValues(c, s);
  }

  // ---------------------------------------------------------------------------------------------------------
  // The dictionary

  const SET_UP: seq<Key> := [
    ConfigureDone, CreateDone, CreatedNodes, FailedNodes, BootStarted, BootstrappedNodes, BootstrapDone, SystemId]

  const SCHEDULE: seq<Key> := [
    ScheduleStarted, ScheduleCompleted, ScheduleIndex, TotalProcesses, TotalScheduledProcs, TotalRescheduledProcs,
    ScheduledNodes, RescheduledNodes, Procs2bRescheduled]

  const WORK: seq<Key> := [
    CurrentProcesses, AllProcesses, ExecutedProcs, RunsLeft, ErrorNodes, FinishedNodes, InitialNumbfile, Transformed,
    Converged, RunFinished]

  function Declarable(): seq<Key> {
    SET_UP + SCHEDULE + WORK
  }

  lemma AllKeys()
    ensures forall k: Key :: k in Declarable() <==> k != ScheduledStarted
  {
    forall k: Key ensures k in SET_UP || k in SCHEDULE || k in WORK <==> k != ScheduledStarted {
    }
  }

  /** What the stage schemas say of a key. */
  ghost predicate IsDeclared(k: Key) {
    && Schema(k) in STAGES && Name(k) in STAGES[Schema(k)]
    && STAGES[Schema(k)][Name(k)] == if IsList(k) then STRING else NUMERIC
  }

  lemma CreateStage()
    ensures "stages/create" in STAGES && STAGES["stages/create"] == CREATE_KEYS
  {
  }

  lemma CreateTypes()
    ensures "create_done" in CREATE_KEYS && CREATE_KEYS["create_done"] == NUMERIC
    ensures "created_nodes" in CREATE_KEYS && CREATE_KEYS["created_nodes"] == STRING
    ensures "failed_nodes" in CREATE_KEYS && CREATE_KEYS["failed_nodes"] == STRING
  {
  }

  lemma CreateDeclared(k: Key)
    requires k in {CreateDone, CreatedNodes, FailedNodes}
    ensures IsDeclared(k)
  {
    hide STAGES, CREATE_KEYS;
    CreateStage();
    CreateTypes();
  }

  lemma BootstrapStage()
    ensures "stages/bootstrap" in STAGES && STAGES["stages/bootstrap"] == BOOTSTRAP_KEYS
  {
  }

  lemma BootstrapTypes()
    ensures "started" in BOOTSTRAP_KEYS && BOOTSTRAP_KEYS["started"] == NUMERIC
    ensures "bootstrapped_nodes" in BOOTSTRAP_KEYS && BOOTSTRAP_KEYS["bootstrapped_nodes"] == STRING
    ensures "bootstrap_done" in BOOTSTRAP_KEYS && BOOTSTRAP_KEYS["bootstrap_done"] == NUMERIC
  {
  }

  lemma BootstrapDeclared(k: Key)
    requires k in {BootStarted, BootstrappedNodes, BootstrapDone}
    ensures IsDeclared(k)
  {
    hide STAGES, BOOTSTRAP_KEYS;
    BootstrapStage();
    BootstrapTypes();
  }

  lemma SystemStage()
    ensures "system" in STAGES && STAGES["system"] == SYSTEM_KEYS
  {
  }

  lemma SystemTypes()
    ensures "id" in SYSTEM_KEYS && SYSTEM_KEYS["id"] == NUMERIC
  {
  }

  lemma SystemDeclared(k: Key)
    requires k in {SystemId}
    ensures IsDeclared(k)
  {
    hide STAGES, SYSTEM_KEYS;
    SystemStage();
    SystemTypes();
  }

  lemma ScheduleStage()
    ensures "stages/schedule" in STAGES && STAGES["stages/schedule"] == SCHEDULE_KEYS
  {
  }

  lemma FlagsTypes()
    ensures "schedule_started" in SCHEDULE_KEYS && SCHEDULE_KEYS["schedule_started"] == NUMERIC
    ensures "schedule_completed" in SCHEDULE_KEYS && SCHEDULE_KEYS["schedule_completed"] == NUMERIC
    ensures "schedule_index" in SCHEDULE_KEYS && SCHEDULE_KEYS["schedule_index"] == NUMERIC
  {
  }

  lemma FlagsDeclared(k: Key)
    requires k in {ScheduleStarted, ScheduleCompleted, ScheduleIndex}
    ensures IsDeclared(k)
  {
    hide STAGES, SCHEDULE_KEYS;
    ScheduleStage();
    FlagsTypes();
  }

  lemma TotalsTypes()
    ensures "total_processes" in SCHEDULE_KEYS && SCHEDULE_KEYS["total_processes"] == NUMERIC
    ensures "total_scheduled_procs" in SCHEDULE_KEYS && SCHEDULE_KEYS["total_scheduled_procs"] == NUMERIC
    ensures "total_rescheduled_procs" in SCHEDULE_KEYS && SCHEDULE_KEYS["total_rescheduled_procs"] == NUMERIC
  {
  }

  lemma TotalsDeclared(k: Key)
    requires k in {TotalProcesses, TotalScheduledProcs, TotalRescheduledProcs}
    ensures IsDeclared(k)
  {
    hide STAGES, SCHEDULE_KEYS;
    ScheduleStage();
    TotalsTypes();
  }

  lemma NodesTypes()
    ensures "scheduled_nodes" in SCHEDULE_KEYS && SCHEDULE_KEYS["scheduled_nodes"] == STRING
    ensures "rescheduled_nodes" in SCHEDULE_KEYS && SCHEDULE_KEYS["rescheduled_nodes"] == STRING
  {
  }

  lemma NodesDeclared(k: Key)
    requires k in {ScheduledNodes, RescheduledNodes}
    ensures IsDeclared(k)
  {
    hide STAGES, SCHEDULE_KEYS;
    ScheduleStage();
    NodesTypes();
  }

  lemma TablesTypes()
    ensures "procs_2b_rescheduled" in SCHEDULE_KEYS && SCHEDULE_KEYS["procs_2b_rescheduled"] == STRING
    ensures "current_processes" in SCHEDULE_KEYS && SCHEDULE_KEYS["current_processes"] == STRING
    ensures "all_processes" in SCHEDULE_KEYS && SCHEDULE_KEYS["all_processes"] == STRING
  {
  }

  lemma TablesDeclared(k: Key)
    requires k in {Procs2bRescheduled, CurrentProcesses, AllProcesses}
    ensures IsDeclared(k)
  {
    hide STAGES, SCHEDULE_KEYS;
    ScheduleStage();
    TablesTypes();
  }

  lemma RunStage()
    ensures "stages/run" in STAGES && STAGES["stages/run"] == RUN_KEYS
  {
  }

  lemma RunsTypes()
    ensures "runs_left" in RUN_KEYS && RUN_KEYS["runs_left"] == NUMERIC
    ensures "error_nodes" in RUN_KEYS && RUN_KEYS["error_nodes"] == NUMERIC
  {
  }

  lemma RunsDeclared(k: Key)
    requires k in {RunsLeft, ErrorNodes}
    ensures IsDeclared(k)
  {
    hide STAGES, RUN_KEYS;
    RunStage();
    RunsTypes();
  }

  lemma FilesTypes()
    ensures "finished_nodes" in RUN_KEYS && RUN_KEYS["finished_nodes"] == STRING
    ensures "initial_numbfile" in RUN_KEYS && RUN_KEYS["initial_numbfile"] == NUMERIC
  {
  }

  lemma FilesDeclared(k: Key)
    requires k in {FinishedNodes, InitialNumbfile}
    ensures IsDeclared(k)
  {
    hide STAGES, RUN_KEYS;
    RunStage();
    FilesTypes();
  }

  lemma ConfigureDeclared()
    ensures IsDeclared(ConfigureDone)
  {
    assert "stages/configure" in STAGES && "configure_done" in STAGES["stages/configure"];
    assert STAGES["stages/configure"]["configure_done"] == NUMERIC;
    hide STAGES;
  }

  lemma ExecuteDeclared()
    ensures IsDeclared(ExecutedProcs)
  {
    assert "stages/execute" in STAGES && "executed_procs" in STAGES["stages/execute"];
    assert STAGES["stages/execute"]["executed_procs"] == STRING;
    hide STAGES;
  }

  lemma TransformDeclared()
    ensures IsDeclared(Transformed)
  {
    assert "stages/transform" in STAGES && "transformed" in STAGES["stages/transform"];
    assert STAGES["stages/transform"]["transformed"] == NUMERIC;
    hide STAGES;
  }

  lemma ConvergeDeclared()
    ensures IsDeclared(Converged)
  {
    assert "stages/converge" in STAGES && "converged" in STAGES["stages/converge"];
    assert STAGES["stages/converge"]["converged"] == NUMERIC;
    hide STAGES;
  }

  lemma DestroyDeclared()
    ensures IsDeclared(RunFinished)
  {
    assert "stages/destroy" in STAGES && "run_finished" in STAGES["stages/destroy"];
    assert STAGES["stages/destroy"]["run_finished"] == NUMERIC;
    hide STAGES;
  }

  lemma MisspeltUndeclared()
    ensures Schema(ScheduledStarted) in STAGES && Name(ScheduledStarted) !in STAGES[Schema(ScheduledStarted)]
  {
    assert STAGES["stages/schedule"] == SCHEDULE_KEYS;
  }

  /** Every key is declared, with the type it is used at, but for the misspelt one. */
  lemma KeyDeclared(k: Key)
    ensures Schema(k) in STAGES
    ensures if k == ScheduledStarted then Name(k) !in STAGES[Schema(k)] else IsDeclared(k)
  {
    hide STAGES, Schema, Name;
    match k
    case CreateDone | CreatedNodes | FailedNodes => CreateDeclared(k);
    case BootStarted | BootstrappedNodes | BootstrapDone => BootstrapDeclared(k);
    case SystemId => SystemDeclared(k);
    case ConfigureDone => ConfigureDeclared();
    case ExecutedProcs => ExecuteDeclared();
    case TotalProcesses | TotalScheduledProcs | TotalRescheduledProcs => TotalsDeclared(k);
    case ScheduledNodes | RescheduledNodes => NodesDeclared(k);
    case Procs2bRescheduled | CurrentProcesses | AllProcesses => TablesDeclared(k);
    case RunsLeft | ErrorNodes => RunsDeclared(k);
    case FinishedNodes | InitialNumbfile => FilesDeclared(k);
    case Transformed => TransformDeclared();
    case Converged => ConvergeDeclared();
    case RunFinished => DestroyDeclared();
    case ScheduledStarted => MisspeltUndeclared();
    case _ => FlagsDeclared(k);
  }

  /** One key set, or deleted if it is there. A schema that is there stays, possibly empty. */
  function Put(rs: Settings, k: Key, o: Option<Value>): Settings {
    match o
    case Some(v) => rs[Schema(k) := (if Schema(k) in rs then rs[Schema(k)] else map[])[Name(k) := v]]
    case None => if Schema(k) in rs then rs[Schema(k) := rs[Schema(k)] - {Name(k)}] else rs
  }

  function PutAll(c: Codec, rs: Settings, s: Job.Settings, ks: seq<Key>): Settings {
    if ks == [] then rs else Put(PutAll(c, rs, s, ks[..|ks| - 1]), ks[|ks| - 1], ValueAt(c, s, ks[|ks| - 1]))
  }

  /** The dictionary `rs` after the job's keys have been set and deleted to hold `s`. */
  function Encode(c: Codec, rs: Settings, s: Job.Settings): Settings {
    PutAll(c, rs, s, Declarable() + [ScheduledStarted])
  }

  lemma PutAt(rs: Settings, k: Key, o: Option<Value>, j: Key)
    ensures At(Put(rs, k, o), j) == if j == k then o else At(rs, j)
  {
    NamesDiffer();
    hide Name, Schema;
  }

  lemma {:induction false} PutAllAt(c: Codec, rs: Settings, s: Job.Settings, ks: seq<Key>, j: Key)
    ensures At(PutAll(c, rs, s, ks), j) == if j in ks then ValueAt(c, s, j) else At(rs, j)
  {
    if ks != [] {
      var k := ks[|ks| - 1];
      PutAllAt(c, rs, s, ks[..|ks| - 1], j);
      PutAt(PutAll(c, rs, s, ks[..|ks| - 1]), k, ValueAt(c, s, k), j);
      assert ks == ks[..|ks| - 1] + [k];
      hide At, Put, ValueAt;
    }
  }

  lemma EncodeHolds(c: Codec, rs: Settings, s: Job.Settings)
    ensures Holds(c, Encode(c, rs, s), s)
  {
    AllKeys();
    hide Declarable, At, ValueAt;
    forall k: Key ensures At(Encode(c, rs, s), k) == ValueAt(c, s, k) {
      PutAllAt(c, rs, s, Declarable() + [ScheduledStarted], k);
    }
  }

  /** Where the dictionary keeps what: the flags of the stages. */
  lemma FlagsKept(c: Codec, rs: Settings, s: Job.Settings)
    ensures var d := Encode(c, rs, s);
            && Lookup(d, "stages/configure", "configure_done") == Num(s.configureDone)
            && Lookup(d, "stages/create", "create_done") == Num(s.createDone)
            && Lookup(d, "stages/bootstrap", "started") == Num(s.bootStarted)
            && Lookup(d, "stages/bootstrap", "bootstrap_done") == Num(s.bootstrapDone)
            && Lookup(d, "system", "id") == Num(s.systemId)
            && Lookup(d, "stages/transform", "transformed") == Num(s.transformed)
            && Lookup(d, "stages/converge", "converged") == Num(s.converged)
            && Lookup(d, "stages/destroy", "run_finished") == Num(s.runFinished)
  {
    EncodeHolds(c, rs, s);
    hide Encode, Lookup;
    var d := Encode(c, rs, s);
    assert At(d, ConfigureDone) == ValueAt(c, s, ConfigureDone);
    assert At(d, CreateDone) == ValueAt(c, s, CreateDone);
    assert At(d, BootStarted) == ValueAt(c, s, BootStarted);
    assert At(d, BootstrapDone) == ValueAt(c, s, BootstrapDone);
    assert At(d, SystemId) == ValueAt(c, s, SystemId);
    assert At(d, Transformed) == ValueAt(c, s, Transformed);
    assert At(d, Converged) == ValueAt(c, s, Converged);
    assert At(d, RunFinished) == ValueAt(c, s, RunFinished);
  }

  /** The flags and counters of a schedule. */
  lemma CountersKept(c: Codec, rs: Settings, s: Job.Settings)
    ensures var d := Encode(c, rs, s);
            && Lookup(d, "stages/schedule", "schedule_started") == Num(s.scheduleStarted)
            && Lookup(d, "stages/schedule", "schedule_completed") == Num(s.scheduleCompleted)
            && Lookup(d, "stages/schedule", "schedule_index") == Num(s.scheduleIndex)
            && Lookup(d, "stages/schedule", "total_processes") == Num(s.totalProcesses)
            && Lookup(d, "stages/schedule", "total_scheduled_procs") == Num(s.totalScheduledProcs)
            && Lookup(d, "stages/schedule", "total_rescheduled_procs") == Num(s.totalRescheduledProcs)
            && Lookup(d, "stages/schedule", "scheduled_started") == Num(s.scheduledStarted)
  {
    EncodeHolds(c, rs, s);
    hide Encode, Lookup;
    var d := Encode(c, rs, s);
    assert At(d, ScheduleStarted) == ValueAt(c, s, ScheduleStarted);
    assert At(d, ScheduleCompleted) == ValueAt(c, s, ScheduleCompleted);
    assert At(d, ScheduleIndex) == ValueAt(c, s, ScheduleIndex);
    assert At(d, TotalProcesses) == ValueAt(c, s, TotalProcesses);
    assert At(d, TotalScheduledProcs) == ValueAt(c, s, TotalScheduledProcs);
    assert At(d, TotalRescheduledProcs) == ValueAt(c, s, TotalRescheduledProcs);
    assert At(d, ScheduledStarted) == ValueAt(c, s, ScheduledStarted);
  }

  /** The counters of a run. */
  lemma RunsKept(c: Codec, rs: Settings, s: Job.Settings)
    ensures var d := Encode(c, rs, s);
            && Lookup(d, "stages/run", "runs_left") == Num(s.runsLeft)
            && Lookup(d, "stages/run", "error_nodes") == Num(s.errorNodes)
            && Lookup(d, "stages/run", "initial_numbfile") == Num(s.initialNumbfile)
  {
    EncodeHolds(c, rs, s);
    hide Encode, Lookup;
    var d := Encode(c, rs, s);
    assert At(d, RunsLeft) == ValueAt(c, s, RunsLeft);
    assert At(d, ErrorNodes) == ValueAt(c, s, ErrorNodes);
    assert At(d, InitialNumbfile) == ValueAt(c, s, InitialNumbfile);
  }

  /** The lists of nodes. */
  lemma NodesKept(c: Codec, rs: Settings, s: Job.Settings)
    ensures var d := Encode(c, rs, s);
            && Lookup(d, "stages/create", "created_nodes") == Nodes(c, s.createdNodes)
            && Lookup(d, "stages/create", "failed_nodes") == Nodes(c, s.failedNodes)
            && Lookup(d, "stages/bootstrap", "bootstrapped_nodes") == Nodes(c, s.bootstrappedNodes)
            && Lookup(d, "stages/schedule", "scheduled_nodes") == Nodes(c, s.scheduledNodes)
            && Lookup(d, "stages/schedule", "rescheduled_nodes") == Nodes(c, s.rescheduledNodes)
  {
    EncodeHolds(c, rs, s);
    hide Encode, Lookup;
    var d := Encode(c, rs, s);
    assert At(d, CreatedNodes) == ValueAt(c, s, CreatedNodes);
    assert At(d, FailedNodes) == ValueAt(c, s, FailedNodes);
    assert At(d, BootstrappedNodes) == ValueAt(c, s, BootstrappedNodes);
    assert At(d, ScheduledNodes) == ValueAt(c, s, ScheduledNodes);
    assert At(d, RescheduledNodes) == ValueAt(c, s, RescheduledNodes);
  }

  /** The lists of processes. */
  lemma TablesKept(c: Codec, rs: Settings, s: Job.Settings)
    ensures var d := Encode(c, rs, s);
            && Lookup(d, "stages/schedule", "current_processes") == Recs(c, s.currentProcesses)
            && Lookup(d, "stages/schedule", "all_processes") == Recs(c, s.allProcesses)
            && Lookup(d, "stages/schedule", "procs_2b_rescheduled") == Recs(c, s.procs2bRescheduled)
            && Lookup(d, "stages/execute", "executed_procs") == Recs(c, s.executedProcs)
            && Lookup(d, "stages/run", "finished_nodes") == Recs(c, s.finishedNodes)
  {
    EncodeHolds(c, rs, s);
    hide Encode, Lookup;
    var d := Encode(c, rs, s);
    assert At(d, CurrentProcesses) == ValueAt(c, s, CurrentProcesses);
    assert At(d, AllProcesses) == ValueAt(c, s, AllProcesses);
    assert At(d, Procs2bRescheduled) == ValueAt(c, s, Procs2bRescheduled);
    assert At(d, ExecutedProcs) == ValueAt(c, s, ExecutedProcs);
    assert At(d, FinishedNodes) == ValueAt(c, s, FinishedNodes);
  }

  /** What is read from the dictionary is what was put into it. */
  lemma DecodeEncode(c: Codec, rs: Settings, s: Job.Settings)
    requires Faithful(c)
    ensures Decode(c, Encode(c, rs, s)) == s
  {
    EncodeHolds(c, rs, s);
    HeldIsRead(c, Encode(c, rs, s), s);
  }

  lemma HeldIsRead(c: Codec, rs: Settings, s: Job.Settings)
    requires Faithful(c) && Holds(c, rs, s)
    ensures Decode(c, rs) == s
  {
    DecodeSetUp(c, rs, s);
    DecodeSchedule(c, rs, s);
    DecodeRun(c, rs, s);
    hide Holds, Decode;
  }

  // ---------------------------------------------------------------------------------------------------------
  // What the store accepts

  /** The schemas of the store declare the stage keys as above. */
  ghost predicate DeclaresStages(schemas: Schemas) {
    forall s :: s in STAGES ==> s in schemas && schemas[s] == STAGES[s]
  }

  lemma PutDeclared(schemas: Schemas, rs: Settings, k: Key, o: Option<Value>)
    requires DeclaresStages(schemas) && Declared(schemas, rs) && (k != ScheduledStarted || o.None?)
    ensures Declared(schemas, Put(rs, k, o))
  {
    KeyDeclared(k);
    hide STAGES, Name, Schema, IsList;
    var schema, r := Schema(k), Put(rs, k, o);
    forall s | s in r ensures s in schemas && KeysDeclared(schemas[s], r[s].Keys) {
      assert s in rs ==> KeysDeclared(schemas[s], rs[s].Keys);
      assert s != schema ==> r[s] == rs[s];
    }
  }

  lemma {:induction false} PutAllDeclared(c: Codec, schemas: Schemas, rs: Settings, s: Job.Settings, ks: seq<Key>)
    requires DeclaresStages(schemas) && Declared(schemas, rs)
    requires forall k :: k in ks ==> k != ScheduledStarted || ValueAt(c, s, k).None?
    ensures Declared(schemas, PutAll(c, rs, s, ks))
  {
    if ks != [] {
      var k := ks[|ks| - 1];
      assert k in ks;
      PutAllDeclared(c, schemas, rs, s, ks[..|ks| - 1]);
      PutDeclared(schemas, PutAll(c, rs, s, ks[..|ks| - 1]), k, ValueAt(c, s, k));
      hide Declared, DeclaresStages, ValueAt, Put;
    }
  }

  /** The store accepts the settings if and only if they lack the misspelt key. */
  lemma DeclaredExactly(c: Codec, schemas: Schemas, rs: Settings, s: Job.Settings)
    requires DeclaresStages(schemas) && Declared(schemas, rs)
    ensures Declared(schemas, Encode(c, rs, s)) <==> s.scheduledStarted.None?
  {
    var d := Encode(c, rs, s);
    assert ValueAt(c, s, ScheduledStarted) == Num(s.scheduledStarted);
    if s.scheduledStarted.None? {
      AllKeys();
      hide Declarable, Declared, DeclaresStages, ValueAt;
      PutAllDeclared(c, schemas, rs, s, Declarable() + [ScheduledStarted]);
    } else {
      KeyDeclared(ScheduledStarted);
      EncodeHolds(c, rs, s);
      assert At(d, ScheduledStarted) == ValueAt(c, s, ScheduledStarted);
      hide STAGES, Name, Schema, Encode, ValueAt;
      assert !KeysDeclared(STAGES[Schema(ScheduledStarted)], d[Schema(ScheduledStarted)].Keys);
    }
  }

  lemma ValueTyped(c: Codec, s: Job.Settings, k: Key)
    ensures ValueAt(c, s, k).Some? ==> if IsList(k) then ValueAt(c, s, k).value.Str? else ValueAt(c, s, k).value.Int?
  {
  }

  lemma PutTyped(schemas: Schemas, rs: Settings, k: Key, c: Codec, s: Job.Settings)
    requires DeclaresStages(schemas) && WellTyped(schemas, rs) && (k != ScheduledStarted || ValueAt(c, s, k).None?)
    ensures WellTyped(schemas, Put(rs, k, ValueAt(c, s, k)))
  {
    KeyDeclared(k);
    ValueTyped(c, s, k);
    hide STAGES, Name, Schema, IsList, ValueAt;
    var schema, r := Schema(k), Put(rs, k, ValueAt(c, s, k));
    forall n | n in r ensures n in schemas && WellTypedDict(schemas[n], r[n]) {
      assert n in rs ==> WellTypedDict(schemas[n], rs[n]);
      assert n != schema ==> r[n] == rs[n];
    }
  }

  /** Numbers and printed lists are what the keys are declared to hold. */
  lemma {:induction false} PutAllTyped(c: Codec, schemas: Schemas, rs: Settings, s: Job.Settings, ks: seq<Key>)
    requires DeclaresStages(schemas) && WellTyped(schemas, rs)
    requires forall k :: k in ks ==> k != ScheduledStarted || ValueAt(c, s, k).None?
    ensures WellTyped(schemas, PutAll(c, rs, s, ks))
  {
    if ks != [] {
      var k := ks[|ks| - 1];
      assert k in ks;
      PutAllTyped(c, schemas, rs, s, ks[..|ks| - 1]);
      PutTyped(schemas, PutAll(c, rs, s, ks[..|ks| - 1]), k, c, s);
      hide WellTyped, DeclaresStages, ValueAt, Put;
    }
  }

  lemma EncodeTyped(c: Codec, schemas: Schemas, rs: Settings, s: Job.Settings)
    requires DeclaresStages(schemas) && WellTyped(schemas, rs) && s.scheduledStarted.None?
    ensures WellTyped(schemas, Encode(c, rs, s))
  {
    assert ValueAt(c, s, ScheduledStarted).None?;
    AllKeys();
    hide Declarable, WellTyped, DeclaresStages, ValueAt;
    PutAllTyped(c, schemas, rs, s, Declarable() + [ScheduledStarted]);
  }

  // ---------------------------------------------------------------------------------------------------------
  // Schemas

  lemma {:induction false} PutAllSchemas(c: Codec, rs: Settings, s: Job.Settings, ks: seq<Key>, schema: string)
    ensures schema in PutAll(c, rs, s, ks) <==>
            schema in rs || exists k :: k in ks && Schema(k) == schema && ValueAt(c, s, k).Some?
  {
    if ks != [] {
      var k := ks[|ks| - 1];
      PutAllSchemas(c, rs, s, ks[..|ks| - 1], schema);
      assert ks == ks[..|ks| - 1] + [k];
      hide Schema, Name, ValueAt;
    }
  }

  lemma RunKeys(k: Key)
    ensures Schema(k) == RUN <==> k in {RunsLeft, ErrorNodes, FinishedNodes, InitialNumbfile}
    ensures Name(RunsLeft) == "runs_left" && Name(ErrorNodes) == "error_nodes"
  {
  }

  /** In a dictionary that starts without it, the run schema is there exactly when one of its keys is. */
  lemma RunSchemaStored(c: Codec, s: Job.Settings)
    ensures RUN in Encode(c, map[], s) <==>
            s.runsLeft.Some? || s.errorNodes.Some? || s.finishedNodes.Some? || s.initialNumbfile.Some?
  {
    PutAllSchemas(c, map[], s, Declarable() + [ScheduledStarted], RUN);
    AllKeys();
    CounterValues(c, s);
    TableValues(c, s);
    hide Declarable, PutAll, ValueAt, Schema, RUN;
    forall k: Key ensures Schema(k) == RUN <==> k in {RunsLeft, ErrorNodes, FinishedNodes, InitialNumbfile} {
      RunKeys(k);
    }
  }

  /** How converge deletes its two keys: a missing schema is caught, a missing key is not. */
  function DeleteRunKeys(rs: Settings): Deletion {
    match Delete(rs, RUN + "/runs_left")
    case KeyMissing => KeyMissing
    case SettingNotFound => DeleteErrorNodes(rs)
    case Deleted(rs') => DeleteErrorNodes(rs')
  }

  function DeleteErrorNodes(rs: Settings): Deletion {
    match Delete(rs, RUN + "/error_nodes")
    case SettingNotFound => Deleted(rs)
    case r => r
  }

  /** Deleting a key by its path is putting nothing under it; it fails if the schema or the key is not there. */
  lemma DeletePut(rs: Settings, k: Key)
    requires Schema(k) != [] && Schema(k)[|Schema(k)| - 1] != '/' && '/' !in Name(k)
    ensures Delete(rs, Schema(k) + "/" + Name(k)) ==
              if Schema(k) !in rs then SettingNotFound
              else if At(rs, k).None? then KeyMissing
              else Deleted(Put(rs, k, None))
  {
    PathParts(Schema(k), Name(k));
    hide Schema, Name;
  }

  lemma RunKeyDeletions(rs: Settings)
    ensures DeleteRunKeys(rs) ==
              if RUN !in rs then Deleted(rs)
              else if At(rs, RunsLeft).None? || At(rs, ErrorNodes).None? then KeyMissing
              else Deleted(Put(Put(rs, RunsLeft, None), ErrorNodes, None))
  {
    var rs' := Put(rs, RunsLeft, None);
    RunKeys(RunsLeft);
    RunKeys(ErrorNodes);
    DeletePut(rs, RunsLeft);
    DeletePut(rs', ErrorNodes);
    DeletePut(rs, ErrorNodes);
    hide Schema, Name, Delete;
    assert RUN + "/runs_left" == Schema(RunsLeft) + "/" + Name(RunsLeft);
    assert RUN + "/error_nodes" == Schema(ErrorNodes) + "/" + Name(ErrorNodes);
    PutAt(rs, RunsLeft, None, ErrorNodes);
  }

  lemma PutsNone(c: Codec, rs: Settings, s: Job.Settings)
    requires Holds(c, rs, s)
    ensures Holds(c, Put(Put(rs, RunsLeft, None), ErrorNodes, None), s.(runsLeft := None, errorNodes := None))
  {
    var rs', s' := Put(rs, RunsLeft, None), s.(runsLeft := None, errorNodes := None);
    hide At, Put, ValueAt;
    forall k: Key ensures At(Put(rs', ErrorNodes, None), k) == ValueAt(c, s', k) {
      PutAt(rs, RunsLeft, None, k);
      PutAt(rs', ErrorNodes, None, k);
      assert At(rs, k) == ValueAt(c, s, k);
      OtherKeys(c, s, s', k);
    }
  }

  /** The deletions of converge go through if and only if both keys are there, or the whole schema is not; and then
    the dictionary holds the settings without the two keys. */
  lemma RunKeysDeleted(c: Codec, rs: Settings, s: Job.Settings)
    requires Holds(c, rs, s)
    ensures DeleteRunKeys(rs).Deleted? <==> (RUN in rs ==> s.runsLeft.Some? && s.errorNodes.Some?)
    ensures DeleteRunKeys(rs).Deleted? ==> Holds(c, DeleteRunKeys(rs).c, s.(runsLeft := None, errorNodes := None))
  {
    RunKeyDeletions(rs);
    PutsNone(c, rs, s);
    CounterValues(c, s);
    assert At(rs, RunsLeft) == ValueAt(c, s, RunsLeft) && At(rs, ErrorNodes) == ValueAt(c, s, ErrorNodes);
    if RUN !in rs {
      RunKeys(RunsLeft);
      RunKeys(ErrorNodes);
      assert At(rs, RunsLeft).None? && At(rs, ErrorNodes).None?;
      hide At, Put, ValueAt, DeleteRunKeys, Schema, Name;
    } else {
      hide At, Put, ValueAt, DeleteRunKeys, Schema, Name, Holds;
    }
  }

  lemma OtherKeys(c: Codec, s: Job.Settings, s': Job.Settings, k: Key)
    requires s' == s.(runsLeft := None, errorNodes := None)
    ensures ValueAt(c, s', k) == if k == RunsLeft || k == ErrorNodes then None else ValueAt(c, s, k)
  {
  }

  /** So the condition of the job's converge step is that of the deletions on its dictionary, and its result is what
    is read from the dictionary after them. */
  lemma ConvergeDeletes(c: Codec, s: Job.Settings)
    requires Faithful(c)
    ensures var r := DeleteRunKeys(Encode(c, map[], s));
            && (r.Deleted? <==> Job.DeletesRunKeys(s))
            && (r.Deleted? ==> Decode(c, r.c) == s.(runsLeft := None, errorNodes := None))
  {
    EncodeHolds(c, map[], s);
    RunSchemaStored(c, s);
    RunKeysDeleted(c, Encode(c, map[], s), s);
    hide Encode, DeleteRunKeys, Decode, Holds;
    if DeleteRunKeys(Encode(c, map[], s)).Deleted? {
      HeldIsRead(c, DeleteRunKeys(Encode(c, map[], s)).c, s.(runsLeft := None, errorNodes := None));
    }
  }

  // ---------------------------------------------------------------------------------------------------------
  // A store that stops half way

  lemma TypedBefore(c: Codec, schemas: Schemas, rs: Settings, s: Job.Settings) returns (d: Settings)
    requires DeclaresStages(schemas) && WellTyped(schemas, rs)
    ensures WellTyped(schemas, d) && Encode(c, rs, s) == Put(d, ScheduledStarted, ValueAt(c, s, ScheduledStarted))
  {
    var ks := Declarable();
    AllKeys();
    hide Declarable, DeclaresStages, WellTyped, Put, ValueAt;
    d := PutAll(c, rs, s, ks);
    PutAllTyped(c, schemas, rs, s, ks);
    assert (ks + [ScheduledStarted])[..|ks|] == ks;
  }

  lemma TypedButOne(c: Codec, schemas: Schemas, rs: Settings, s: Job.Settings, schema: string, name: string)
    requires DeclaresStages(schemas) && WellTyped(schemas, rs)
    requires Lookup(Encode(c, rs, s), schema, name).Some? && schema in schemas && name in schemas[schema]
    ensures WellTypedValue(schemas[schema][name], Lookup(Encode(c, rs, s), schema, name).value)
  {
    var d := TypedBefore(c, schemas, rs, s);
    KeyDeclared(ScheduledStarted);
    hide STAGES, Name, Schema, ValueAt, Encode;
    assert schema == Schema(ScheduledStarted) ==> name != Name(ScheduledStarted);
    assert Lookup(d, schema, name) == Lookup(Encode(c, rs, s), schema, name);
    assert WellTypedDict(schemas[schema], d[schema]);
  }

  /** The keys that hold in `m` what they hold in `b`. */
  ghost function KeysFrom(m: Settings, b: Settings): set<Key> {
    set k: Key | At(m, k) == At(b, k)
  }

  ghost predicate Mixed(a: Settings, b: Settings, m: Settings) {
    forall k: Key {:trigger At(m, k)} :: At(m, k) == At(a, k) || At(m, k) == At(b, k)
  }

  /** A mixture of two dictionaries reads as a mixture of what they read as. */
  lemma DecodeMixed(c: Codec, a: Settings, b: Settings, m: Settings)
    requires Mixed(a, b, m) && At(m, ScheduledStarted) == At(a, ScheduledStarted)
    requires Job.OnlyWaitKeys(Decode(c, a), Decode(c, b))
    ensures Decode(c, m) == Job.PartlyWritten(Decode(c, a), Decode(c, b), KeysFrom(m, b))
  {
    hide At, ReadNum, ReadNodes, ReadRecs;
  }

  lemma EncodeFits(c: Codec, schemas: Schemas, rs: Settings, s: Job.Settings)
    requires DeclaresStages(schemas) && WellTyped(schemas, rs)
    ensures FitsWhereDeclared(schemas, Encode(c, rs, s))
  {
    hide Encode, WellTyped;
    forall schema, name | Lookup(Encode(c, rs, s), schema, name).Some? && schema in schemas && name in schemas[schema]
      ensures WellTypedValue(schemas[schema][name], Lookup(Encode(c, rs, s), schema, name).value)
    {
      TypedButOne(c, schemas, rs, s, schema, name);
    }
  }

  /** An empty store reads as settings without any key. */
  lemma EmptyStore(c: Codec, schemas: Schemas)
    ensures Readable(schemas, map[]) && Decode(c, ReadAll(schemas, map[])) == Job.EMPTY
  {
    assert ReadAll(schemas, map[]) == map[];
    hide Schema, Name;
  }

  /** No store holds the misspelt key. */
  lemma NeverMisspelt(schemas: Schemas, rows: Rows)
    requires DeclaresStages(schemas) && Readable(schemas, rows)
    ensures At(ReadAll(schemas, rows), ScheduledStarted) == None
    ensures forall c :: Decode(c, ReadAll(schemas, rows)).scheduledStarted == None
  {
    KeyDeclared(ScheduledStarted);
    hide STAGES, Schema, Name;
    ReadAt(schemas, rows, Schema(ScheduledStarted), Name(ScheduledStarted));
  }

  /** What the stages read back after an update that did not raise is what was written. */
  lemma ReadsWritten(c: Codec, schemas: Schemas, rows: Rows, s: Job.Settings)
    requires Faithful(c) && DeclaresStages(schemas) && Readable(schemas, rows) && s.scheduledStarted.None?
    ensures var rows' := Written(rows, Encode(c, ReadAll(schemas, rows), s));
            Readable(schemas, rows') && Decode(c, ReadAll(schemas, rows')) == s
  {
    var rs := ReadAll(schemas, rows);
    var d := Encode(c, rs, s);
    ReadTyped(schemas, rows);
    EncodeTyped(c, schemas, rs, s);
    DeclaredExactly(c, schemas, rs, s);
    DecodeEncode(c, rs, s);
    hide Encode, Decode, DeclaresStages, WellTyped, Declared, Readable;
    SchemasStay(c, rs, s);
    ReadsBack(schemas, rows, d);
  }

  lemma SchemasStay(c: Codec, rs: Settings, s: Job.Settings)
    ensures rs.Keys <= Encode(c, rs, s).Keys
  {
    forall schema | schema in rs ensures schema in Encode(c, rs, s) {
      PutAllSchemas(c, rs, s, Declarable() + [ScheduledStarted], schema);
    }
  }

  lemma ReadsMixed(schemas: Schemas, before: Rows, d: Settings, r: Rows)
    requires Readable(schemas, before) && Between(schemas, before, d, r) && FitsWhereDeclared(schemas, d)
    ensures Readable(schemas, r) && Mixed(ReadAll(schemas, before), d, ReadAll(schemas, r))
  {
    hide Readable, Between, FitsWhereDeclared, Schema, Name;
    ReadBetween(schemas, before, d, r);
    forall k: Key
      ensures || At(ReadAll(schemas, r), k) == At(ReadAll(schemas, before), k)
              || At(ReadAll(schemas, r), k) == At(d, k)
    {
      assert ReadsOldOrNew(schemas, before, d, r, Schema(k), Name(k));
    }
  }

  /** What the stages read back after an update that raised: some of the keys it was to write have their new values. */
  lemma ReadsHalfWritten(c: Codec, schemas: Schemas, before: Rows, rs: Settings, s: Job.Settings, r: Rows)
    requires Faithful(c) && DeclaresStages(schemas) && Readable(schemas, before) && WellTyped(schemas, rs)
    requires Between(schemas, before, Encode(c, rs, s), r)
    requires Job.OnlyWaitKeys(Decode(c, ReadAll(schemas, before)), s)
    ensures Readable(schemas, r)
    ensures Decode(c, ReadAll(schemas, r)) ==
              Job.PartlyWritten(Decode(c, ReadAll(schemas, before)), s, KeysFrom(ReadAll(schemas, r), Encode(c, rs, s)))
  {
    hide Encode, Decode, Readable, Between, DeclaresStages, WellTyped, FitsWhereDeclared, Mixed, KeysFrom, At;
    hide Job.OnlyWaitKeys;
    EncodeFits(c, schemas, rs, s);
    DecodeEncode(c, rs, s);
    ReadsMixed(schemas, before, Encode(c, rs, s), r);
    NeverMisspelt(schemas, before);
    NeverMisspelt(schemas, r);
    DecodeMixed(c, ReadAll(schemas, before), Encode(c, rs, s), ReadAll(schemas, r));
  }
}

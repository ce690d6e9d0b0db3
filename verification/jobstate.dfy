/** The job as a persistent state machine: the settings the nine stages exchange, the trigger of each stage, and
  what each stage writes back. The stage classes compute these functions step by step, and
  `Driver` runs the stages.

  The outside world is an `Env`: what the environment answers during one driver step. Nothing is assumed about
  it here; in particular a stage body may raise at any step. */
module JobState {
  import opened Records
  import opened Scheduler
  import Keys
  import Sweep

  /** The persisted settings a stage reads or writes. `None` is an absent key. */
  datatype Settings = Settings(
    configureDone: Option<int>,
    createDone: Option<int>, createdNodes: Option<seq<Node>>, failedNodes: Option<seq<Node>>,
    bootStarted: Option<int>, bootstrappedNodes: Option<seq<Node>>, bootstrapDone: Option<int>,
    systemId: Option<int>,
    scheduleStarted: Option<int>, scheduleCompleted: Option<int>, scheduleIndex: Option<int>,
    totalProcesses: Option<int>, totalScheduledProcs: Option<int>, totalRescheduledProcs: Option<int>,
    scheduledNodes: Option<seq<Node>>, rescheduledNodes: Option<seq<Node>>,
    currentProcesses: Option<seq<Rec>>, allProcesses: Option<seq<Rec>>, procs2bRescheduled: Option<seq<Rec>>,
    executedProcs: Option<seq<Rec>>,
    runsLeft: Option<int>, errorNodes: Option<int>, finishedNodes: Option<seq<Rec>>, initialNumbfile: Option<int>,
    transformed: Option<int>, converged: Option<int>, runFinished: Option<int>,
    // the key `scheduled_started`, which the wait stage writes but no schema declares
    scheduledStarted: Option<int>
  )

  const EMPTY := Settings(None, None, None, None, None, None, None, None, None, None, None, None, None, None, None,
                          None, None, None, None, None, None, None, None, None, None, None, None, None)

  /** What does not change while a job runs. */
  datatype Job = Job(inputs: bool, cloud: bool, maximumRetry: int)

  datatype Machine = Machine(nid: string, ip: string, region: string)

  /** The answers of the outside world during one driver step. */
  datatype Env = Env(
    raises: bool,             // the stage body raises for a reason of its own
    machines: seq<Machine>,   // the machines the platform hands out
    booted: set<string>,      // addresses that report a completed bootstrap
    scheduled: set<string>,   // addresses that report a completed schedule
    sweep: Sweep.RangeMap,    // the connector's internal sweep map
    inputDirs: nat,           // subdirectories of the iteration's input directory
    launched: set<nat>,       // processes whose launch succeeds
    finished: set<nat>,       // processes that report "stopped"
    unreachable: set<nat>,    // processes whose poll fails to connect
    attempt: Settings,        // what a wait pass with a failed poll hands to the store
    written: set<Keys.Key>,   // the keys of that which are stored before storing raises
    done: bool                // the connector's convergence test
  )

  datatype Stage = Configure | Create | Bootstrap | Schedule | Execute | Wait | Transform | Converge | Destroy

  datatype Outcome = Ok(s: Settings) | Raised

  /** Python's truth of a stored number. */
  predicate IsSet(o: Option<int>) {
    o.Some? && o.value != 0
  }

  // ---------------------------------------------------------------------------------------------------------
  // Triggers

  predicate ConfigureTriggered(s: Settings) {
    s.configureDone.None? || s.configureDone.value == 0
  }

  predicate CreateTriggered(s: Settings) {
    s.configureDone.Some? && !IsSet(s.createDone) && s.createdNodes.None?
  }

  predicate BootstrapTriggered(s: Settings) {
    && s.createdNodes.Some? && RunningNodes(s.createdNodes.value) != []
    && (s.bootstrappedNodes.None? || |s.bootstrappedNodes.value| < |RunningNodes(s.createdNodes.value)|)
  }

  predicate ScheduleTriggered(s: Settings) {
    && s.createdNodes.Some? && RunningNodes(s.createdNodes.value) != []
    && IsSet(s.bootstrapDone)
    && s.bootstrappedNodes.Some? && s.bootstrappedNodes.value != []
    && if s.procs2bRescheduled.GetOr([]) != [] then
         !(s.totalRescheduledProcs.GetOr(0) == |s.procs2bRescheduled.value| && s.totalRescheduledProcs.GetOr(0) != 0)
       else
         !(IsSet(s.totalProcesses) && s.totalProcesses.value == s.totalScheduledProcs.GetOr(0))
  }

  predicate ExecuteTriggered(s: Settings) {
    && s.scheduleCompleted.Some? && s.allProcesses.Some? && s.scheduleCompleted.value != 0
    && s.currentProcesses.Some? && s.currentProcesses.value != []
    && (s.executedProcs.None? || Count(s.currentProcesses.value, Ready) != 0)
  }

  predicate WaitTriggered(s: Settings) {
    && s.executedProcs.Some?
    && s.currentProcesses.GetOr([]) != [] && Count(s.currentProcesses.GetOr([]), Ready) == 0
    && s.procs2bRescheduled.GetOr([]) == []
    && IsSet(s.runsLeft)
  }

  predicate TransformTriggered(s: Settings) {
    && s.procs2bRescheduled.GetOr([]) == []
    && Count(s.currentProcesses.GetOr([]), Ready) == 0
    && !(s.failedNodes.Some? && s.createdNodes.Some?
         && (|s.failedNodes.value| == |s.createdNodes.value| || s.createdNodes.value == []))
    && s.runsLeft == Some(0) && !IsSet(s.transformed) && !IsSet(s.converged)
  }

  predicate ConvergeTriggered(s: Settings) {
    IsSet(s.transformed)
  }

  predicate DestroyTriggered(s: Settings) {
    IsSet(s.converged) && !IsSet(s.runFinished)
  }

  predicate Triggered(st: Stage, s: Settings) {
    match st
    case Configure => ConfigureTriggered(s)
    case Create => CreateTriggered(s)
    case Bootstrap => BootstrapTriggered(s)
    case Schedule => ScheduleTriggered(s)
    case Execute => ExecuteTriggered(s)
    case Wait => WaitTriggered(s)
    case Transform => TransformTriggered(s)
    case Converge => ConvergeTriggered(s)
    case Destroy => DestroyTriggered(s)
  }

  // ---------------------------------------------------------------------------------------------------------
  // What a triggered stage writes

  function ConfigureRun(s: Settings): Settings {
    s.(configureDone := Some(1))
  }

  function CreatedNodes(machines: seq<Machine>): (nodes: seq<Node>)
    ensures |nodes| == |machines|
  {
    seq(|machines|, i requires 0 <= i < |machines| =>
      Node(machines[i].nid, machines[i].ip, machines[i].region, NodeRunning))
  }

  function CreateRun(s: Settings, e: Env): Settings {
    s.(createdNodes := Some(CreatedNodes(e.machines)), createDone := Some(1))
  }

  function BootstrapRun(s: Settings, e: Env): Settings
    requires BootstrapTriggered(s)
  {
    var started := s.bootStarted.GetOr(0);
    var known := s.bootstrappedNodes.GetOr([]);
    var nodes := if started == 0 then known else Confirm(s.createdNodes.value, e.booted, known);
    var s' := s.(bootStarted := Some(if started == 0 then 1 else started), bootstrappedNodes := Some(nodes),
                 systemId := Some(0));
    if nodes != [] && |nodes| == |RunningNodes(s.createdNodes.value)| then s'.(bootstrapDone := Some(1)) else s'
  }

  /** The processes of one iteration: the combinations of the sweep map, for each input directory if there are any. */
  function TotalProcs(job: Job, e: Env): nat {
    if job.inputs then Sweep.Size(Sweep.Ranges(e.sweep)) * e.inputDirs else Sweep.Size(Sweep.Ranges(e.sweep))
  }

  function Loaded(s: Settings): Settings {
    s.(scheduledNodes := Some(s.scheduledNodes.GetOr([])), rescheduledNodes := Some(s.rescheduledNodes.GetOr([])),
       allProcesses := Some(s.allProcesses.GetOr([])), currentProcesses := Some(s.currentProcesses.GetOr([])))
  }

  /** The ids the first schedule of an iteration counts on from; the settings hold a number. */
  function ScheduleIndex(s: Settings): nat {
    if s.scheduleIndex.GetOr(0) < 0 then 0 else s.scheduleIndex.GetOr(0)
  }

  function StartScheduleRun(job: Job, s: Settings, e: Env): Outcome
    requires ScheduleTriggered(s)
  {
    var processes := TotalProcs(job, e);
    if processes == 0 then Raised  // the round robin returns nothing to unpack
    else
      var current := RoundRobin(s.bootstrappedNodes.value, processes, ScheduleIndex(s), job.maximumRetry);
      Ok(Loaded(s).(currentProcesses := Some(current), allProcesses := Some(s.allProcesses.GetOr([]) + current),
                    scheduleStarted := Some(1), procs2bRescheduled := Some([]),
                    totalProcesses := Some(processes), scheduleIndex := Some(ScheduleIndex(s) + processes)))
  }

  function CompleteScheduleRun(s: Settings, e: Env): Settings
    requires ScheduleTriggered(s)
  {
    var confirmed := s.scheduledNodes.GetOr([]);
    var current := s.currentProcesses.GetOr([]);
    var total := AddConfirmed(s.bootstrappedNodes.value, e.scheduled, confirmed, current,
                              s.totalScheduledProcs.GetOr(0));
    var s' := Loaded(s).(scheduledNodes := Some(Confirm(s.bootstrappedNodes.value, e.scheduled, confirmed)),
                         totalScheduledProcs := Some(total));
    if total == |current| then s'.(scheduleCompleted := Some(1)) else s'
  }

  function StartRescheduleRun(job: Job, s: Settings): Settings
    requires ScheduleTriggered(s) && s.procs2bRescheduled.GetOr([]) != []
  {
    var r := StartRound(s.bootstrappedNodes.value, s.procs2bRescheduled.value, s.currentProcesses.GetOr([]),
                        s.allProcesses.GetOr([]), [], 0, job.maximumRetry);
    Loaded(s).(currentProcesses := Some(r.current), allProcesses := Some(r.all), scheduleStarted := Some(1))
  }

  function CompleteRescheduleRun(s: Settings, e: Env): Settings
    requires ScheduleTriggered(s) && s.procs2bRescheduled.GetOr([]) != []
  {
    var r := PollRound(s.bootstrappedNodes.value, e.scheduled,
                       Round(s.rescheduledNodes.GetOr([]), s.currentProcesses.GetOr([]), s.allProcesses.GetOr([]),
                             s.totalRescheduledProcs.GetOr(0)));
    var s' := Loaded(s).(rescheduledNodes := Some(r.confirmed), currentProcesses := Some(r.current),
                         allProcesses := Some(r.all), totalRescheduledProcs := Some(r.total));
    if r.total == |s.procs2bRescheduled.value|
    then s'.(scheduleCompleted := Some(1), procs2bRescheduled := Some([]), totalRescheduledProcs := Some(0),
             rescheduledNodes := Some([]))
    else s'
  }

  function ScheduleRun(job: Job, s: Settings, e: Env): Outcome
    requires ScheduleTriggered(s)
  {
    if !IsSet(s.scheduleStarted) then
      if s.procs2bRescheduled.GetOr([]) != [] then Ok(StartRescheduleRun(job, s)) else StartScheduleRun(job, s, e)
    else
      if s.procs2bRescheduled.GetOr([]) != [] then Ok(CompleteRescheduleRun(s, e)) else Ok(CompleteScheduleRun(s, e))
  }

  // Execute

  /** Mark the first ready record with this id as running. */
  function MarkLaunched(ps: seq<Rec>, id: nat): (r: seq<Rec>)
    ensures |r| == |ps|
  {
    if ps == [] then []
    else if ps[0].id == id && ps[0].status == Ready then [ps[0].(status := Running)] + ps[1..]
    else [ps[0]] + MarkLaunched(ps[1..], id)
  }

  function LaunchOne(p: Rec, launched: set<nat>): Rec {
    if p.status == Ready && p.id in launched then p.(status := Running) else p
  }

  function LaunchCurrent(ps: seq<Rec>, launched: set<nat>): (r: seq<Rec>)
    ensures |r| == |ps|
    ensures forall i :: 0 <= i < |ps| ==> r[i] == LaunchOne(ps[i], launched)
  {
    seq(|ps|, i requires 0 <= i < |ps| => LaunchOne(ps[i], launched))
  }

  function LaunchAll(ps: seq<Rec>, launched: set<nat>, all: seq<Rec>): (r: seq<Rec>)
    ensures |r| == |all|
  {
    if ps == [] then all
    else LaunchAll(ps[1..], launched,
                   if ps[0].status == Ready && ps[0].id in launched then MarkLaunched(all, ps[0].id) else all)
  }

  /** Every counter from `first` up to `first + count` names a ready process. */
  ghost predicate CountersMatch(ps: seq<Rec>, first: int, count: nat) {
    forall c :: first <= c < first + count ==> ReadyWithId(ps, c)
  }

  ghost predicate ReadyWithId(ps: seq<Rec>, c: int) {
    exists i :: 0 <= i < |ps| && ps[i].status == Ready && ps[i].id == c
  }

  function NotFailed(ps: seq<Rec>): seq<Rec> {
    if ps == [] then [] else (if ps[0].status != Failed then [ps[0]] else []) + NotFailed(ps[1..])
  }

  ghost predicate UploadsInputs(job: Job, s: Settings)
    requires ExecuteTriggered(s)
  {
    job.inputs && Count(s.currentProcesses.value, Failed) == 0
  }

  ghost function ExecuteRun(job: Job, s: Settings, e: Env): Outcome
    requires ExecuteTriggered(s)
  {
    var current := s.currentProcesses.value;
    var numb := s.initialNumbfile.GetOr(1);
    if UploadsInputs(job, s) && (e.inputDirs == 0 || !CountersMatch(current, numb, TotalProcs(job, e))) then Raised
    else
      var current' := LaunchCurrent(current, e.launched);
      Ok(s.(executedProcs := Some(NotFailed(s.executedProcs.GetOr([]))), currentProcesses := Some(current'),
            allProcesses := Some(LaunchAll(current, e.launched, s.allProcesses.value)),
            runsLeft := Some(Count(current', Running)),
            initialNumbfile := Some(if UploadsInputs(job, s) then numb + TotalProcs(job, e) else numb)))
  }

  // Wait

  /** Mark every running record with this id as completed. */
  function MarkCompleted(ps: seq<Rec>, id: nat): (r: seq<Rec>)
    ensures |r| == |ps|
    ensures forall i :: 0 <= i < |ps| ==>
              r[i] == if ps[i].id == id && ps[i].status == Running then ps[i].(status := Completed) else ps[i]
  {
    seq(|ps|, i requires 0 <= i < |ps| =>
      if ps[i].id == id && ps[i].status == Running then ps[i].(status := Completed) else ps[i])
  }

  datatype Tables = Tables(current: seq<Rec>, all: seq<Rec>, executed: seq<Rec>, finished: seq<Rec>)

  /** The poll of one process that was running when the pass began, in a pass without connection failures. The
    record is shared between the current and the finished list, so the finished entry is already completed. */
  function Poll(t: Tables, p: Rec, finished: set<nat>): Tables {
    if p.id in finished && p.id !in Ids(t.finished) then
      Tables(MarkCompleted(t.current, p.id), MarkCompleted(t.all, p.id), MarkCompleted(t.executed, p.id),
             t.finished + [p.(status := Completed)])
    else t
  }

  function PollAll(t: Tables, polled: seq<Rec>, finished: set<nat>): Tables
    decreases polled
  {
    if polled == [] then t else PollAll(Poll(t, polled[0], finished), polled[1..], finished)
  }

  /** The records that were running, in order. */
  function RunningRecs(ps: seq<Rec>): seq<Rec> {
    if ps == [] then [] else (if ps[0].status == Running then [ps[0]] else []) + RunningRecs(ps[1..])
  }

  ghost predicate PollFails(ps: seq<Rec>, e: Env) {
    exists i :: 0 <= i < |ps| && ps[i].status == Running && ps[i].id in e.unreachable
  }

  function WaitTables(s: Settings, e: Env): Tables
    requires WaitTriggered(s)
  {
    var current := s.currentProcesses.value;
    PollAll(Tables(current, s.allProcesses.GetOr([]), s.executedProcs.value, s.finishedNodes.GetOr([])),
            RunningRecs(current), e.finished)
  }

  /** The runs a pass leaves, computed from lengths: everything that was launched, less what is finished and failed. */
  function Working(t: Tables, failed: nat): int {
    (|t.current| - Count(t.current, Ready)) - (|t.finished| + failed)
  }

  /** A pass with a connection failure either raises while it looks up the node, or collects at least one failed
    process; then the settings it writes hold an undeclared key and storing them raises. */
  ghost function WaitRun(s: Settings, e: Env): Outcome
    requires WaitTriggered(s)
  {
    var current := s.currentProcesses.value;
    if PollFails(current, e) then Raised
    else
      var t := WaitTables(s, e);
      var working := Working(t, Count(current, Failed));
      Ok(s.(runsLeft := Some(working), errorNodes := Some(working),
            finishedNodes := Some(if working == 0 then [] else t.finished),
            allProcesses := Some(t.all), currentProcesses := Some(t.current), executedProcs := Some(t.executed)))
  }

  // Transform, converge, destroy

  function TransformRun(s: Settings): Settings {
    s.(transformed := Some(1))
  }

  /** `delkey` raises when its schema is stored without the key; that exception is not the one converge catches. */
  predicate DeletesRunKeys(s: Settings) {
    || (s.runsLeft.Some? && s.errorNodes.Some?)
    || (s.runsLeft.None? && s.errorNodes.None? && s.finishedNodes.None? && s.initialNumbfile.None?)
  }

  function ConvergeRun(s: Settings, e: Env): Outcome {
    var s' := s.(transformed := None, systemId := Some(s.systemId.GetOr(0) + 1));
    if e.done then Ok(s'.(converged := Some(1)))
    else if !DeletesRunKeys(s) then Raised
    else
      Ok(s'.(scheduledNodes := Some([]), executedProcs := Some([]), currentProcesses := Some([]),
             totalScheduledProcs := Some(0), scheduleCompleted := Some(0), scheduleStarted := Some(0),
             runsLeft := None, errorNodes := None, converged := Some(0)))
  }

  function Terminated(nodes: seq<Node>): (r: seq<Node>)
    ensures |r| == |nodes|
    ensures forall i :: 0 <= i < |nodes| ==>
              r[i] == if nodes[i].state == NodeRunning then nodes[i].(state := NodeTerminated) else nodes[i]
  {
    seq(|nodes|, i requires 0 <= i < |nodes| =>
      if nodes[i].state == NodeRunning then nodes[i].(state := NodeTerminated) else nodes[i])
  }

  function DestroyRun(job: Job, s: Settings): Settings {
    var f := (o: Option<seq<Node>>) => Some(if job.cloud then Terminated(o.GetOr([])) else o.GetOr([]));
    s.(runFinished := Some(1), createdNodes := f(s.createdNodes), scheduledNodes := f(s.scheduledNodes),
       bootstrappedNodes := f(s.bootstrappedNodes))
  }

  ghost function Run(job: Job, st: Stage, s: Settings, e: Env): Outcome
    requires Triggered(st, s)
  {
    if e.raises then Raised
    else
      match st
      case Configure => Ok(ConfigureRun(s))
      case Create => Ok(CreateRun(s, e))
      case Bootstrap => Ok(BootstrapRun(s, e))
      case Schedule => ScheduleRun(job, s, e)
      case Execute => ExecuteRun(job, s, e)
      case Wait => WaitRun(s, e)
      case Transform => Ok(TransformRun(s))
      case Converge => ConvergeRun(s, e)
      case Destroy => Ok(DestroyRun(job, s))
  }

  // ---------------------------------------------------------------------------------------------------------
  // The driver

  datatype Ctx = Ctx(s: Settings, deleted: bool)

  /** A wait pass writes eight keys, and the misspelt one. */
  ghost predicate OnlyWaitKeys(s: Settings, s': Settings) {
    s' == s.(runsLeft := s'.runsLeft, errorNodes := s'.errorNodes, finishedNodes := s'.finishedNodes,
             allProcesses := s'.allProcesses, currentProcesses := s'.currentProcesses,
             executedProcs := s'.executedProcs, failedNodes := s'.failedNodes,
             procs2bRescheduled := s'.procs2bRescheduled, scheduledStarted := s'.scheduledStarted)
  }

  /** What the store holds when it is given `attempt` and stops at a key no schema declares. Each key that a wait pass
    writes has its new value if the store had come to it, and its old value otherwise. */
  function PartlyWritten(s: Settings, attempt: Settings, written: set<Keys.Key>): Settings {
    s.(runsLeft := if Keys.RunsLeft in written then attempt.runsLeft else s.runsLeft,
       errorNodes := if Keys.ErrorNodes in written then attempt.errorNodes else s.errorNodes,
       finishedNodes := if Keys.FinishedNodes in written then attempt.finishedNodes else s.finishedNodes,
       allProcesses := if Keys.AllProcesses in written then attempt.allProcesses else s.allProcesses,
       currentProcesses := if Keys.CurrentProcesses in written then attempt.currentProcesses else s.currentProcesses,
       executedProcs := if Keys.ExecutedProcs in written then attempt.executedProcs else s.executedProcs,
       failedNodes := if Keys.FailedNodes in written then attempt.failedNodes else s.failedNodes,
       procs2bRescheduled :=
         if Keys.Procs2bRescheduled in written then attempt.procs2bRescheduled else s.procs2bRescheduled)
  }

  /** The stage is a wait pass with a failed poll. If it comes to writing at all, it writes an undeclared key. */
  ghost predicate FailsToStore(st: Stage, s: Settings, e: Env) {
    st == Wait && WaitTriggered(s) && !e.raises && PollFails(s.currentProcesses.value, e)
  }

  /** What a stage that is not triggered or raises leaves in the store; the driver swallows the exception and commits
    what was written by then. */
  ghost function LeftBehind(st: Stage, s: Settings, stored: Settings, e: Env): Settings {
    if FailsToStore(st, s, e) then PartlyWritten(stored, e.attempt, e.written) else stored
  }

  /** One pass of the driver over the stages in the order the store lists them, on the settings `s` it has read: the
    first triggered stage whose body does not raise is run and its settings stored. If there is none, the context is
    marked deleted. `stored` is what the store holds by now. */
  ghost function DriveFrom(job: Job, s: Settings, stored: Settings, e: Env, order: seq<Stage>): Ctx
    decreases |order|
  {
    if order == [] then Ctx(stored, true)
    else if Triggered(order[0], s) && Run(job, order[0], s, e).Ok? then Ctx(Run(job, order[0], s, e).s, false)
    else DriveFrom(job, s, LeftBehind(order[0], s, stored, e), e, order[1..])
  }

  /** One driver task on a context. A deleted context is left alone. */
  ghost function Drive(job: Job, c: Ctx, e: Env, order: seq<Stage>): Ctx {
    if c.deleted then c else DriveFrom(job, c.s, c.s, e, order)
  }

  /** The store lists every one of the nine stages. */
  ghost predicate Complete(order: seq<Stage>) {
    forall st: Stage :: st in order
  }
}

/** Runs that exist: a job on one machine with one process, from its creation to its end, and two ways it can fail. */
module JobStories {
  import opened Records
  import opened Scheduler
  import opened JobState
  import opened JobInvariant
  import opened JobSteps
  import opened JobRuns
  import opened JobProgress
  import opened WaitPass
  import Keys
  import Sweep
  import Rounds = RescheduleRound
  import Waits = WaitStage

  /** One machine is handed out, and everything answers. */
  const GOOD := Env(false, [Machine("1", "a", "")], {"a"}, {"a"}, [], 1, {1}, {1}, {}, EMPTY, {}, true)

  const NODE := Node("1", "a", "", NodeRunning)

  function Proc(job: Job, st: Status): Rec {
    Rec(1, "a", st, job.maximumRetry)
  }

  // The states of the job, one after the other

  const CONFIGURED := EMPTY.(configureDone := Some(1))

  const CREATED := CONFIGURED.(createDone := Some(1), createdNodes := Some([NODE]))

  const STARTED := CREATED.(bootStarted := Some(1), bootstrappedNodes := Some([]), systemId := Some(0))

  const BOOTED := STARTED.(bootstrappedNodes := Some([NODE]), bootstrapDone := Some(1))

  function Handed(job: Job): Settings {
    BOOTED.(scheduledNodes := Some([]), rescheduledNodes := Some([]), scheduleStarted := Some(1),
            procs2bRescheduled := Some([]), totalProcesses := Some(1), scheduleIndex := Some(1),
            currentProcesses := Some([Proc(job, Ready)]), allProcesses := Some([Proc(job, Ready)]))
  }

  function Confirmed(job: Job): Settings {
    Handed(job).(scheduledNodes := Some([NODE]), totalScheduledProcs := Some(1), scheduleCompleted := Some(1))
  }

  function Launched(job: Job): Settings {
    Confirmed(job).(executedProcs := Some([]), currentProcesses := Some([Proc(job, Running)]),
                    allProcesses := Some([Proc(job, Running)]), runsLeft := Some(1),
                    initialNumbfile := Some(if job.inputs then 2 else 1))
  }

  function AllStopped(job: Job): Settings {
    Launched(job).(currentProcesses := Some([Proc(job, Completed)]), allProcesses := Some([Proc(job, Completed)]),
                   runsLeft := Some(0), errorNodes := Some(0), finishedNodes := Some([]))
  }

  function Changed(job: Job): Settings {
    AllStopped(job).(transformed := Some(1))
  }

  function Done(job: Job): Settings {
    Changed(job).(transformed := None, systemId := Some(1), converged := Some(1))
  }

  /** On a cloud the node is terminated, on a cluster it is left alone. */
  function Over(job: Job): Settings {
    var node := NODE.(state := if job.cloud then NodeTerminated else NodeRunning);
    Done(job).(runFinished := Some(1), createdNodes := Some([node]), scheduledNodes := Some([node]),
               bootstrappedNodes := Some([node]))
  }

  function StateAt(job: Job, t: nat): Settings {
    match t
    case 0 => EMPTY
    case 1 => CONFIGURED
    case 2 => CREATED
    case 3 => STARTED
    case 4 => BOOTED
    case 5 => Handed(job)
    case 6 => Confirmed(job)
    case 7 => Launched(job)
    case 8 => AllStopped(job)
    case 9 => Changed(job)
    case 10 => Done(job)
    case _ => Over(job)
  }

  function PhaseAt(t: nat): Phase {
    match t
    case 0 => Fresh
    case 1 => Configured
    case 2 => Booting
    case 3 => Booting
    case 4 => Idle
    case 5 => Confirming
    case 6 => Launching
    case 7 => Waiting
    case 8 => Collected
    case 9 => Transformed
    case 10 => Converged
    case _ => Finished
  }

  lemma OneRecord(r: Rec)
    ensures forall st :: Count([r], st) == if r.status == st then 1 else 0
    ensures [r][1..] == []
  {
  }

  lemma OneNode(n: Node)
    ensures [n][1..] == [] && RunningNodes([n]) == if n.state == NodeRunning then [n] else []
  {
  }

  lemma SetUpSteps(job: Job)
    ensures forall t :: 0 <= t <= 4 ==> InPhase(StateAt(job, t), PhaseAt(t))
    ensures ConfigureRun(EMPTY) == CONFIGURED && CreateRun(CONFIGURED, GOOD) == CREATED
    ensures BootstrapTriggered(CREATED) && BootstrapRun(CREATED, GOOD) == STARTED
    ensures BootstrapTriggered(STARTED) && BootstrapRun(STARTED, GOOD) == BOOTED
  {
    OneNode(NODE);
    assert CreatedNodes(GOOD.machines) == [NODE];
    assert Confirm([NODE], {"a"}, []) == [NODE];
  }

  lemma ScheduleSteps(job: Job)
    ensures InPhase(Handed(job), Confirming) && InPhase(Confirmed(job), Launching)
    ensures ScheduleTriggered(BOOTED) && ScheduleRun(job, BOOTED, GOOD) == Ok(Handed(job))
    ensures ScheduleTriggered(Handed(job)) && ScheduleRun(job, Handed(job), GOOD) == Ok(Confirmed(job))
  {
    OneNode(NODE);
    var ps := [Proc(job, Ready)];
    OneRecord(Proc(job, Ready));
    assert [NODE][..1] == [NODE];
    assert Block(0, 1, "a", job.maximumRetry) == ps;
    assert Alloc([], 1, 0, 1, job.maximumRetry) == [];
    assert Alloc([NODE], 1, 0, 0, job.maximumRetry) == ps + [];
    assert RoundRobin([NODE], 1, 0, job.maximumRetry) == ps;
    assert Sweep.Ranges(GOOD.sweep) == [];
    assert TotalProcs(job, GOOD) == 1;
    assert Confirm([NODE], {"a"}, []) == [NODE];
    assert Covered(ps, []) == 0;
    assert CountIp(ps, "a") == 1 by {
      assert CountIp(ps[1..], "a") == 0;
    }
    assert AddConfirmed([NODE], {"a"}, [], ps, 0) == 1;
  }

  lemma LaunchStep(job: Job)
    ensures InPhase(Launched(job), Waiting)
    ensures ExecuteTriggered(Confirmed(job)) && ExecuteRun(job, Confirmed(job), GOOD) == Ok(Launched(job))
  {
    OneRecord(Proc(job, Ready));
    OneRecord(Proc(job, Running));
    var ps := [Proc(job, Ready)];
    assert ps[0].status == Ready && ps[0].id == 1;
    assert ReadyWithId(ps, 1);
    assert Sweep.Ranges(GOOD.sweep) == [];
    assert TotalProcs(job, GOOD) == 1;
    assert LaunchCurrent(ps, {1}) == [Proc(job, Running)];
    assert MarkLaunched(ps, 1) == [Proc(job, Running)];
    assert LaunchAll(ps, {1}, ps) == LaunchAll(ps[1..], {1}, [Proc(job, Running)]);
  }

  /** One running process that reports, seen from its pass. */
  lemma OneStops(p: Rec)
    requires p.status == Running
    ensures var q := p.(status := Completed);
            && RunningRecs([p]) == [p]
            && PollAll(Tables([p], [p], [], []), [p], {p.id}) == Tables([q], [q], [], [q])
  {
    var q := p.(status := Completed);
    assert [p][1..] == [];
    assert MarkCompleted([p], p.id) == [q] && MarkCompleted([], p.id) == [];
    var t := Tables([p], [p], [], []);
    assert Poll(t, p, {p.id}) == Tables([q], [q], [], [q]);
    assert PollAll(t, [p], {p.id}) == PollAll(Poll(t, p, {p.id}), [p][1..], {p.id});
  }

  lemma WaitsStep(job: Job)
    ensures InPhase(AllStopped(job), Collected)
    ensures WaitTriggered(Launched(job)) && WaitRun(Launched(job), GOOD) == Ok(AllStopped(job))
  {
    OneRecord(Proc(job, Running));
    OneRecord(Proc(job, Completed));
    OneStops(Proc(job, Running));
    hide PollAll, RunningRecs;
  }

  lemma TransformsStep(job: Job)
    ensures InPhase(Changed(job), Transformed)
    ensures TransformTriggered(AllStopped(job)) && TransformRun(AllStopped(job)) == Changed(job)
  {
    WaitsStep(job);
    PhaseTriggers(AllStopped(job), Collected, Transform);
    TransformStep(AllStopped(job));
    hide InPhase;
  }

  lemma ConvergesStep(job: Job)
    ensures InPhase(Done(job), Converged)
    ensures ConvergeTriggered(Changed(job)) && ConvergeRun(Changed(job), GOOD) == Ok(Done(job))
  {
    TransformsStep(job);
    ConvergeStep(Changed(job), GOOD);
    hide InPhase;
  }

  lemma DestroysStep(job: Job)
    ensures InPhase(Over(job), Finished) && DestroyTriggered(Done(job)) && DestroyRun(job, Done(job)) == Over(job)
  {
    ConvergesStep(job);
    DestroyStep(job, Done(job));
    assert Terminated([NODE]) == [NODE.(state := NodeTerminated)];
    hide InPhase;
  }

  lemma PhasesAre(job: Job, t: nat)
    ensures InPhase(StateAt(job, t), PhaseAt(t))
  {
    SetUpSteps(job);
    ScheduleSteps(job);
    LaunchStep(job);
    WaitsStep(job);
    TransformsStep(job);
    ConvergesStep(job);
    DestroysStep(job);
    hide InPhase;
  }

  /** The step from each state to the next, when everything answers. */
  lemma StepsAre(job: Job, t: nat)
    requires t < 11
    ensures StageOf(PhaseAt(t)).Some? && Triggered(StageOf(PhaseAt(t)).value, StateAt(job, t))
    ensures Run(job, StageOf(PhaseAt(t)).value, StateAt(job, t), GOOD) == Ok(StateAt(job, t + 1))
  {
    SetUpSteps(job);
    ScheduleSteps(job);
    LaunchStep(job);
    WaitsStep(job);
    TransformsStep(job);
    ConvergesStep(job);
    DestroysStep(job);
    hide InPhase, ExecuteRun, WaitRun, ScheduleRun, BootstrapRun, ConvergeRun;
  }

  function Story(job: Job, t: nat): Ctx {
    Ctx(StateAt(job, t), t > 11)
  }

  const ALL_GOOD := Input(GOOD, Rounds.ORDER)

  lemma StoryStep(job: Job, t: nat)
    ensures Drive(job, Story(job, t), GOOD, Rounds.ORDER) == Story(job, t + 1)
  {
    Rounds.OrderComplete();
    if t < 12 {
      PhasesAre(job, t);
      DriveIsNext(job, StateAt(job, t), PhaseAt(t), GOOD, Rounds.ORDER);
    }
    if t < 11 {
      StepsAre(job, t);
    }
    hide InPhase, Run, Drive;
  }

  // ---------------------------------------------------------------------------------------------------------
  // A run that ends

  const GOOD_DAYS: nat -> Input := _ => ALL_GOOD

  lemma AtNext(job: Job, t: nat)
    ensures At(job, GOOD_DAYS, 0) == Ctx(EMPTY, false) == Story(job, 0)
    ensures At(job, GOOD_DAYS, t + 1) == Drive(job, At(job, GOOD_DAYS, t), GOOD, Rounds.ORDER)
  {
    hide Drive;
  }

  lemma {:induction false} StoryIs(job: Job, t: nat)
    ensures At(job, GOOD_DAYS, t) == Story(job, t)
  {
    hide *;
    AtNext(job, 0);
    if t > 0 {
      StoryIs(job, t - 1);
      StoryStep(job, t - 1);
      AtNext(job, t - 1);
    }
  }

  lemma GoodStep(job: Job, t: nat)
    ensures !TriggeredRaises(job, StateAt(job, t), GOOD)
  {
    PhasesAre(job, t);
    forall st: Stage ensures Triggered(st, StateAt(job, t)) <==> StageOf(PhaseAt(t)) == Some(st) {
      PhaseTriggers(StateAt(job, t), PhaseAt(t), st);
    }
    if t < 11 {
      StepsAre(job, t);
    }
    hide InPhase, Run, Triggered, StateAt;
  }

  /** There are runs as `FairRunsEnd` speaks of: for every job, the one in which everything always answers. It reaches
    its end, and the context is deleted. */
  lemma FairRunsExist(job: Job)
    ensures Quiet(job, GOOD_DAYS, 1) && Fair(job, GOOD_DAYS)
    ensures At(job, GOOD_DAYS, 11).s.runFinished == Some(1) && At(job, GOOD_DAYS, 12).deleted
  {
    StoryIs(job, 11);
    StoryIs(job, 12);
    Rounds.OrderComplete();
    hide At, StateAt;
    forall t: nat ensures !TriggeredRaises(job, At(job, GOOD_DAYS, t).s, GOOD) {
      StoryIs(job, t);
      GoodStep(job, t);
    }
    forall t: nat ensures UsefulFrom(job, GOOD_DAYS, t) {
      var t' := if t < 11 then 11 else t;
      StoryIs(job, t');
      assert Useful(job, GOOD_DAYS, t') by { EndState(job, t'); }
    }
  }

  lemma EndState(job: Job, t: nat)
    requires t >= 11
    ensures StateAt(job, t).runFinished == Some(1)
  {
  }

  // ---------------------------------------------------------------------------------------------------------
  // A lost connection

  /** What the pass hands to the store when the connection is lost: the process has failed, and is to be rescheduled. */
  function Lost(job: Job): Settings {
    var failed := [Proc(job, Failed)];
    Launched(job).(currentProcesses := Some(failed), allProcesses := Some(failed), runsLeft := Some(0),
                   errorNodes := Some(0), finishedNodes := Some([]), procs2bRescheduled := Some(failed),
                   scheduledStarted := Some(0))
  }

  /** The store comes to the list of processes before it comes to the misspelt key. */
  function LostAt(job: Job): Env {
    GOOD.(finished := {}, unreachable := {1}, attempt := Lost(job), written := {Keys.Procs2bRescheduled})
  }

  function NoAnswer(id: nat): Answer {
    if id == 1 then Unreachable(false) else NotStopped
  }

  lemma LostStored(job: Job)
    ensures Answers(NoAnswer, LostAt(job)) && Waits.PassStored(Launched(job), Lost(job), NoAnswer)
  {
    var p, q := Proc(job, Running), Proc(job, Failed);
    OneRecord(p);
    OneRecord(q);
    assert EvolveAll([p], [p], NoAnswer, 1) == [q] by {
      assert Evolve(p, [p], NoAnswer, 0) == p;
    }
    assert EvolveAll([], [p], NoAnswer, 1) == [];
    assert [p][0].status == Running && NoAnswer([p][0].id).Unreachable?;
    assert Waits.AnyLost([p], NoAnswer, 1);
    assert Reports([p], NoAnswer, 1) == Reports([p], NoAnswer, 0) + [];
    assert LateReports([p], NoAnswer, 1) == 0;
  }

  /** The first `n` good days, as a run. */
  function States(job: Job, n: nat): (cs: seq<Ctx>)
    ensures |cs| == n + 1 && forall t :: 0 <= t <= n ==> cs[t] == Story(job, t)
  {
    seq(n + 1, (t: nat) => Story(job, t))
  }

  function Days(n: nat): (ins: seq<Input>)
    ensures |ins| == n && forall t :: 0 <= t < n ==> ins[t] == ALL_GOOD
  {
    seq(n, (t: nat) => ALL_GOOD)
  }

  lemma GoodRun(job: Job, n: nat)
    ensures IsRun(job, States(job, n), Days(n))
  {
    Rounds.OrderComplete();
    hide Drive, Complete, Proc;
    var cs, ins := States(job, n), Days(n);
    assert Story(job, 0) == Ctx(EMPTY, false);
    forall i | 0 <= i < n ensures cs[i + 1] == Drive(job, cs[i], ins[i].e, ins[i].order) {
      StoryStep(job, i);
    }
  }

  /** A run and one more step. */
  lemma OneMoreStep(job: Job, cs: seq<Ctx>, ins: seq<Input>, day: Input, c: Ctx)
    requires IsRun(job, cs, ins) && Complete(day.order) && c == Drive(job, cs[|ins|], day.e, day.order)
    ensures IsRun(job, cs + [c], ins + [day])
  {
    hide Drive, Complete;
    var cs', ins' := cs + [c], ins + [day];
    forall i | 0 <= i < |ins'|
      ensures Complete(ins'[i].order) && cs'[i + 1] == Drive(job, cs'[i], ins'[i].e, ins'[i].order)
    {
      if i < |ins| {
        assert cs'[i] == cs[i] && cs'[i + 1] == cs[i + 1] && ins'[i] == ins[i];
      }
    }
  }

  lemma SixthState(job: Job)
    ensures Story(job, 6) == Ctx(Confirmed(job), false)
  {
  }

  lemma SeventhState(job: Job)
    ensures Story(job, 7) == Ctx(Launched(job), false)
  {
  }

  lemma LostPoll(job: Job)
    ensures WaitTriggered(Launched(job)) && PollFails(Launched(job).currentProcesses.value, LostAt(job))
    ensures PartlyWritten(Launched(job), Lost(job), {Keys.Procs2bRescheduled})
         == Launched(job).(procs2bRescheduled := Some([Proc(job, Failed)]))
  {
    WaitsStep(job);
    assert [Proc(job, Running)][0].status == Running;
  }

  lemma LostStep(job: Job)
    ensures InPhase(Launched(job), Waiting)
    ensures Drive(job, Ctx(Launched(job), false), LostAt(job), Rounds.ORDER)
         == Ctx(Launched(job).(procs2bRescheduled := Some([Proc(job, Failed)])), true)
  {
    Rounds.OrderComplete();
    LaunchStep(job);
    LostPoll(job);
    DriveIsNext(job, Launched(job), Waiting, LostAt(job), Rounds.ORDER);
    hide InPhase, PollFails, WaitTriggered, PartlyWritten, Launched, Drive;
  }

  /** A run that reaches waiting and is deleted because its one process cannot be reached. What is left in the store
    lists that process as one to reschedule, which no later step will read. */
  lemma UnreachableDeletes(job: Job) returns (cs: seq<Ctx>, ins: seq<Input>)
    ensures IsRun(job, cs, ins) && |ins| == 8
    ensures cs[7] == Ctx(Launched(job), false) && InPhase(cs[7].s, Waiting)
    ensures PollFails(cs[7].s.currentProcesses.value, ins[7].e)
    ensures cs[8].deleted && cs[8].s == Launched(job).(procs2bRescheduled := Some([Proc(job, Failed)]))
  {
    hide *;
    Rounds.OrderComplete();
    LostStep(job);
    LostPoll(job);
    SeventhState(job);
    var day := Input(LostAt(job), Rounds.ORDER);
    var left := Ctx(Launched(job).(procs2bRescheduled := Some([Proc(job, Failed)])), true);
    GoodRun(job, 7);
    OneMoreStep(job, States(job, 7), Days(7), day, left);
    cs, ins := States(job, 7) + [left], Days(7) + [day];
  }

  // ---------------------------------------------------------------------------------------------------------
  // A second launch pass

  /** After a launch pass in which the launch fails. */
  function Unlaunched(job: Job): Settings {
    Confirmed(job).(executedProcs := Some([]), runsLeft := Some(0), initialNumbfile := Some(2))
  }

  const NO_LAUNCH := GOOD.(launched := {})

  lemma ExecuteDrives(job: Job, s: Settings, e: Env)
    requires InPhase(s, Launching) && ExecuteTriggered(s) && !e.raises
    ensures Drive(job, Ctx(s, false), e, Rounds.ORDER)
         == if ExecuteRun(job, s, e).Ok? then Ctx(ExecuteRun(job, s, e).s, false) else Ctx(s, true)
  {
    Rounds.OrderComplete();
    DriveIsNext(job, s, Launching, e, Rounds.ORDER);
    hide InPhase, ExecuteRun, ExecuteTriggered, Drive;
  }

  lemma NoLaunchStep(job: Job)
    requires job.inputs
    ensures Drive(job, Ctx(Confirmed(job), false), NO_LAUNCH, Rounds.ORDER) == Ctx(Unlaunched(job), false)
  {
    hide InPhase, ExecuteRun, ExecuteTriggered, Drive, Confirmed, Unlaunched;
    ScheduleSteps(job);
    NothingLaunches(job);
    ExecuteDrives(job, Confirmed(job), NO_LAUNCH);
  }

  lemma NothingLaunches(job: Job)
    requires job.inputs
    ensures ExecuteTriggered(Confirmed(job)) && ExecuteRun(job, Confirmed(job), NO_LAUNCH) == Ok(Unlaunched(job))
    ensures TotalProcs(job, NO_LAUNCH) == 1
  {
    var ps := [Proc(job, Ready)];
    OneRecord(Proc(job, Ready));
    assert ps[0].status == Ready && ps[0].id == 1;
    assert ReadyWithId(ps, 1);
    assert Sweep.Ranges(NO_LAUNCH.sweep) == [];
    assert LaunchCurrent(ps, {}) == ps;
    assert LaunchAll(ps, {}, ps) == LaunchAll(ps[1..], {}, ps);
  }

  lemma SecondLaunch(job: Job)
    requires job.inputs
    ensures ExecuteTriggered(Unlaunched(job))
    ensures Drive(job, Ctx(Unlaunched(job), false), NO_LAUNCH, Rounds.ORDER) == Ctx(Unlaunched(job), true)
  {
    Rounds.OrderComplete();
    PhasesAre(job, 6);
    OneRecord(Proc(job, Ready));
    assert InPhase(Unlaunched(job), Launching);
    PhaseTriggers(Unlaunched(job), Launching, Execute);
    assert !ReadyWithId([Proc(job, Ready)], 2);
    assert Sweep.Ranges(NO_LAUNCH.sweep) == [];
    assert ExecuteRun(job, Unlaunched(job), NO_LAUNCH).Raised?;
    ExecuteDrives(job, Unlaunched(job), NO_LAUNCH);
  }

  /** A run of a job with inputs whose sweep never changes: a launch fails, and the second launch pass finds no process
    for its counter and deletes the context. */
  lemma SecondPassDeletes(job: Job) returns (cs: seq<Ctx>, ins: seq<Input>)
    requires job.inputs
    ensures IsRun(job, cs, ins) && SweepStable(job, cs, ins) && |ins| == 8
    ensures !cs[7].deleted && Triggered(Execute, cs[7].s) && cs[7].s.runsLeft == Some(0)
    ensures cs[8].deleted
  {
    Rounds.OrderComplete();
    NoLaunchStep(job);
    NothingLaunches(job);
    SecondLaunch(job);
    hide Drive, Complete, IsRun, TotalProcs, StateAt, Confirmed, Unlaunched;
    var day, c := Input(NO_LAUNCH, Rounds.ORDER), Ctx(Unlaunched(job), false);
    GoodRun(job, 6);
    SixthState(job);
    OneMoreStep(job, States(job, 6), Days(6), day, c);
    OneMoreStep(job, States(job, 6) + [c], Days(6) + [day], day, Ctx(Unlaunched(job), true));
    cs, ins := States(job, 6) + [c] + [Ctx(Unlaunched(job), true)], Days(6) + [day] + [day];
    OneLaunch(job);
    forall i | 0 <= i < 8 ensures SameSweep(job, cs[i].s, ins[i].e) {
      if i < 6 {
        NotYetLaunching(job, i);
      }
    }
  }

  lemma OneLaunch(job: Job)
    ensures |Confirmed(job).currentProcesses.value| == 1 && |Unlaunched(job).currentProcesses.value| == 1
    ensures Unlaunched(job).runsLeft == Some(0)
  {
  }

  lemma NotYetLaunching(job: Job, t: nat)
    requires t < 6
    ensures !Triggered(Execute, StateAt(job, t))
  {
    PhasesAre(job, t);
    PhaseTriggers(StateAt(job, t), PhaseAt(t), Execute);
  }

  // ---------------------------------------------------------------------------------------------------------
  // What the misspelt key prevents

  lemma StaysSettled(h: seq<Rec>, ps: seq<Rec>, now: seq<Rec>, all: seq<Rec>, answer: nat -> Answer)
    requires AllStatus(h, Completed) && RunningOrCompleted(ps)
    requires Waits.AlikeAll(now, EvolveAll(ps, ps, answer, |ps|)) && Waits.AlikeAll(all, h + now)
    ensures Rounds.Settled(now) && Rounds.Settled(all)
  {
    forall i | 0 <= i < |now| ensures now[i].status != Ready && now[i].status != RescheduleReady {
      OnlyFromRunning(ps[i], ps, answer, |ps|);
      assert ps[i] in ps;
    }
  }

  lemma WaitingSetUp(s: Settings, s': Settings)
    requires InPhase(s, Waiting) && OnlyWaitKeys(s, s')
    ensures Rounds.SetUp(s') && s'.scheduleCompleted == Some(1)
    ensures !IsSet(s'.transformed) && !IsSet(s'.converged) && s'.runFinished.None?
    ensures s'.totalRescheduledProcs == s.totalRescheduledProcs
    ensures AllStatus(History(s), Completed) && RunningOrCompleted(s.currentProcesses.value)
  {
    RunningNodesAll(s);
    hide RunningOrCompleted, FinishedAre, DistinctIps, History;
  }

  lemma ListedFailed(listed: seq<Rec>, now: seq<Rec>)
    requires Waits.FailedOnce(listed, now)
    ensures listed != [] && DistinctIds(listed) && Count(now, Failed) > 0
  {
    CountZero(now, Failed);
    assert listed[0] in now && listed[0].status == Failed;
  }

  /** Whatever a waiting job's pass with a lost process hands to the store, a round would be due in it if the
    misspelt key were the one the schedule stage reads. */
  lemma OnlyMisspelt(s: Settings, s': Settings, answer: nat -> Answer)
    requires InPhase(s, Waiting) && s.totalRescheduledProcs.GetOr(0) == 0
    requires Waits.PassStored(s, s', answer)
    requires Waits.AnyLost(s.currentProcesses.value, answer, |s.currentProcesses.value|)
    ensures Rounds.RoundDue(s'.(scheduledStarted := None, scheduleStarted := s'.scheduledStarted))
  {
    WaitingSetUp(s, s');
    Waits.StoredTablesAgree(s, s', answer);
    hide InPhase, EvolveAll, Reports, LateReports, Waits.AlikeAll, Rounds.Settled, Count, Waits.NodesRecorded, History;
    hide Waits.FailedOnce, Waits.AnyLost, AllStatus, RunningOrCompleted, DistinctIds;
    StaysSettled(History(s), s.currentProcesses.value, s'.currentProcesses.value, s'.allProcesses.value, answer);
    ListedFailed(s'.procs2bRescheduled.GetOr([]), s'.currentProcesses.value);
  }
}

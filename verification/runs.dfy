/** Whole runs of the driver on one job: what holds in every state, whatever the outside world answers and in
  whatever order the store lists the stages. */
module JobRuns {
  import opened Records
  import opened Scheduler
  import opened JobState
  import opened TableLemmas
  import opened JobInvariant
  import opened JobSteps

  lemma EarlyKeepsInv(job: Job, s: Settings, ph: Phase, e: Env, st: Stage)
    requires ph in {Fresh, Configured, Booting}
    requires InPhase(s, ph) && StageOf(ph) == Some(st) && Triggered(st, s) && Run(job, st, s, e).Ok?
    ensures Inv(Run(job, st, s, e).s)
  {
    var s' := Run(job, st, s, e).s;
    if ph == Fresh {
      ConfigureStep(s);
      assert InPhase(s', Configured);
    } else if ph == Configured {
      CreateStep(s, e);
      assert InPhase(s', if e.machines == [] then Stranded else Booting);
    } else {
      BootstrapStep(s, e);
      assert InPhase(s', Booting) || InPhase(s', Idle);
    }
  }

  lemma WorkKeepsInv(job: Job, s: Settings, ph: Phase, e: Env, st: Stage)
    requires ph in {Idle, Confirming, Launching, Waiting}
    requires InPhase(s, ph) && StageOf(ph) == Some(st) && Triggered(st, s) && Run(job, st, s, e).Ok?
    ensures Inv(Run(job, st, s, e).s)
  {
    var s' := Run(job, st, s, e).s;
    if ph == Idle {
      assert InPhase(s', Confirming) by { StartStep(job, s, e); }
    } else if ph == Confirming {
      assert InPhase(s', Confirming) || InPhase(s', Launching) by { CompleteStep(job, s, e); }
    } else if ph == Launching {
      assert InPhase(s', Launching) || InPhase(s', Waiting) by { ExecuteStep(job, s, e); }
    } else {
      assert InPhase(s', Waiting) || InPhase(s', Collected) by { WaitStep(s, e); }
    }
  }

  lemma LateKeepsInv(job: Job, s: Settings, ph: Phase, e: Env, st: Stage)
    requires ph in {Collected, Transformed, Converged}
    requires InPhase(s, ph) && StageOf(ph) == Some(st) && Triggered(st, s) && Run(job, st, s, e).Ok?
    ensures Inv(Run(job, st, s, e).s)
  {
    var s' := Run(job, st, s, e).s;
    if ph == Collected {
      assert InPhase(s', Transformed) by { TransformStep(s); }
    } else if ph == Transformed {
      assert InPhase(s', if e.done then Converged else Idle) by { ConvergeStep(s, e); }
    } else {
      assert InPhase(s', Finished) by { DestroyStep(job, s); }
    }
  }

  /** From any phase, a stage body that does not raise leads to a phase. */
  lemma RunKeepsInv(job: Job, s: Settings, ph: Phase, e: Env, st: Stage)
    requires InPhase(s, ph) && StageOf(ph) == Some(st) && Triggered(st, s) && Run(job, st, s, e).Ok?
    ensures Inv(Run(job, st, s, e).s)
  {
    if ph in {Fresh, Configured, Booting} {
      EarlyKeepsInv(job, s, ph, e, st);
    } else if ph in {Idle, Confirming, Launching, Waiting} {
      WorkKeepsInv(job, s, ph, e, st);
    } else {
      LateKeepsInv(job, s, ph, e, st);
    }
  }

  /** One driver pass, without the loop: the one triggered stage runs, or the context is deleted. */
  ghost function Next(job: Job, s: Settings, stored: Settings, ph: Phase, e: Env): Ctx
    requires InPhase(s, ph)
  {
    if StageOf(ph).None? then Ctx(stored, true)
    else
      PhaseTriggers(s, ph, StageOf(ph).value);
      match Run(job, StageOf(ph).value, s, e)
      case Ok(s') => Ctx(s', false)
      case Raised => Ctx(LeftBehind(StageOf(ph).value, s, stored, e), true)
  }

  lemma LeftOnce(st: Stage, s: Settings, stored: Settings, e: Env)
    ensures !Triggered(st, s) ==> LeftBehind(st, s, stored, e) == stored
    ensures LeftBehind(st, s, LeftBehind(st, s, stored, e), e) == LeftBehind(st, s, stored, e)
  {
    hide WaitTriggered, PollFails;
  }

  lemma {:induction false} DrivePass(job: Job, s: Settings, stored: Settings, ph: Phase, e: Env, order: seq<Stage>)
    requires InPhase(s, ph)
    ensures DriveFrom(job, s, stored, e, order)
         == if StageOf(ph).Some? && StageOf(ph).value in order then Next(job, s, stored, ph, e) else Ctx(stored, true)
    decreases |order|
  {
    if order != [] {
      hide InPhase, Run, Triggered, LeftBehind;
      var left := LeftBehind(order[0], s, stored, e);
      PhaseTriggers(s, ph, order[0]);
      LeftOnce(order[0], s, stored, e);
      DrivePass(job, s, left, ph, e, order[1..]);
    }
  }

  lemma DriveIsNext(job: Job, s: Settings, ph: Phase, e: Env, order: seq<Stage>)
    requires InPhase(s, ph) && Complete(order)
    ensures Drive(job, Ctx(s, false), e, order) == Next(job, s, s, ph, e)
  {
    DrivePass(job, s, s, ph, e, order);
  }

  /** A pass over any list of stages leads to a phase, or deletes the context. */
  lemma DriveKeepsInv(job: Job, s: Settings, stored: Settings, e: Env, order: seq<Stage>)
    requires Inv(s)
    ensures var c := DriveFrom(job, s, stored, e, order); c.deleted || Inv(c.s)
  {
    var ph :| InPhase(s, ph);
    DrivePass(job, s, stored, ph, e, order);
    if StageOf(ph).Some? {
      PhaseTriggers(s, ph, StageOf(ph).value);
      if Run(job, StageOf(ph).value, s, e).Ok? {
        RunKeepsInv(job, s, ph, e, StageOf(ph).value);
      }
    }
  }

  // ---------------------------------------------------------------------------------------------------------
  // Runs

  datatype Input = Input(e: Env, order: seq<Stage>)

  /** A run of the driver on a job that starts with no stage settings. */
  ghost predicate IsRun(job: Job, cs: seq<Ctx>, ins: seq<Input>) {
    && |cs| == |ins| + 1 && cs[0] == Ctx(EMPTY, false)
    && forall i :: 0 <= i < |ins| ==> Complete(ins[i].order) && cs[i + 1] == Drive(job, cs[i], ins[i].e, ins[i].order)
  }

  /** Every state of every run that is not deleted is in one of the phases. */
  lemma {:induction false} RunInvariant(job: Job, cs: seq<Ctx>, ins: seq<Input>, i: nat)
    requires IsRun(job, cs, ins) && i < |cs|
    ensures cs[i].deleted || Inv(cs[i].s)
  {
    if i == 0 {
      assert InPhase(EMPTY, Fresh);
    } else {
      RunInvariant(job, cs, ins, i - 1);
      var c, e := cs[i - 1], ins[i - 1].e;
      if !c.deleted {
        var ph :| InPhase(c.s, ph);
        DriveIsNext(job, c.s, ph, e, ins[i - 1].order);
        if StageOf(ph).Some? {
          PhaseTriggers(c.s, ph, StageOf(ph).value);
          if Run(job, StageOf(ph).value, c.s, e).Ok? {
            RunKeepsInv(job, c.s, ph, e, StageOf(ph).value);
          }
        }
      }
    }
  }

  /** The job has nothing left to do: it is finished, or the platform handed out no machine at all. */
  predicate Ended(s: Settings) {
    s.runFinished == Some(1) || s.createdNodes == Some([])
  }

  lemma PhaseEnded(s: Settings, ph: Phase)
    requires InPhase(s, ph)
    ensures Ended(s) <==> StageOf(ph).None?
  {
    if ph == Finished && Booted(s) {
      RunningNodesAll(s);
    }
  }

  ghost predicate OnlyTrigger(s: Settings, st: Stage) {
    Triggered(st, s) && forall st': Stage :: Triggered(st', s) ==> st' == st
  }

  /** In every state of every run exactly one of the nine triggers holds until the job has ended, and none does
    after that. */
  lemma ExactlyOneTrigger(job: Job, cs: seq<Ctx>, ins: seq<Input>, i: nat)
    requires IsRun(job, cs, ins) && i < |cs| && !cs[i].deleted
    ensures !Ended(cs[i].s) ==> exists st :: OnlyTrigger(cs[i].s, st)
    ensures Ended(cs[i].s) ==> forall st: Stage :: !Triggered(st, cs[i].s)
  {
    var s := cs[i].s;
    RunInvariant(job, cs, ins, i);
    var ph :| InPhase(s, ph);
    PhaseEnded(s, ph);
    forall st: Stage ensures Triggered(st, s) <==> StageOf(ph) == Some(st) {
      PhaseTriggers(s, ph, st);
    }
    if StageOf(ph).Some? {
      assert OnlyTrigger(s, StageOf(ph).value);
    }
  }

  /** The order in which the store lists the stages never matters. */
  lemma OrderIrrelevant(job: Job, cs: seq<Ctx>, ins: seq<Input>, i: nat, e: Env, order: seq<Stage>, order': seq<Stage>)
    requires IsRun(job, cs, ins) && i < |cs| && Complete(order) && Complete(order')
    ensures Drive(job, cs[i], e, order) == Drive(job, cs[i], e, order')
  {
    if !cs[i].deleted {
      RunInvariant(job, cs, ins, i);
      var ph :| InPhase(cs[i].s, ph);
      DriveIsNext(job, cs[i].s, ph, e, order);
      DriveIsNext(job, cs[i].s, ph, e, order');
    }
  }

  ghost predicate TriggeredRaises(job: Job, s: Settings, e: Env) {
    exists st :: Triggered(st, s) && Run(job, st, s, e).Raised?
  }

  /** A driver step deletes a context exactly when the job has ended or the triggered stage raised: since no
    other stage is triggered, a raised exception falls through to the end of the loop. The settings are then left as
    they were, unless a wait pass with a failed poll has come to storing: then they differ in some of the keys that
    pass writes. */
  lemma DeletedExactly(job: Job, cs: seq<Ctx>, ins: seq<Input>, i: nat)
    requires IsRun(job, cs, ins) && i < |ins| && !cs[i].deleted
    ensures cs[i + 1].deleted <==> Ended(cs[i].s) || TriggeredRaises(job, cs[i].s, ins[i].e)
    ensures cs[i + 1].deleted ==>
              cs[i + 1].s == if FailsToStore(Wait, cs[i].s, ins[i].e)
                             then PartlyWritten(cs[i].s, ins[i].e.attempt, ins[i].e.written) else cs[i].s
  {
    var s, e := cs[i].s, ins[i].e;
    RunInvariant(job, cs, ins, i);
    var ph :| InPhase(s, ph);
    PhaseEnded(s, ph);
    DriveIsNext(job, s, ph, e, ins[i].order);
    forall st: Stage ensures Triggered(st, s) <==> StageOf(ph) == Some(st) {
      PhaseTriggers(s, ph, st);
    }
    hide InPhase, Run, PartlyWritten;
  }

  /** A deleted context never changes again. */
  lemma {:induction false} DeletedForGood(job: Job, cs: seq<Ctx>, ins: seq<Input>, i: nat, j: nat)
    requires IsRun(job, cs, ins) && i <= j < |cs| && cs[i].deleted
    ensures cs[j] == cs[i]
    decreases j - i
  {
    if i < j {
      DeletedForGood(job, cs, ins, i, j - 1);
      assert cs[(j - 1) + 1] == Drive(job, cs[j - 1], ins[j - 1].e, ins[j - 1].order);
    }
  }

  /** A wait pass in which one running process cannot be reached ends the job. */
  lemma FailedPollDeletes(job: Job, cs: seq<Ctx>, ins: seq<Input>, i: nat)
    requires IsRun(job, cs, ins) && i < |ins| && !cs[i].deleted
    requires WaitTriggered(cs[i].s) && PollFails(cs[i].s.currentProcesses.value, ins[i].e)
    ensures cs[i + 1].deleted
  {
    assert Triggered(Wait, cs[i].s) && Run(job, Wait, cs[i].s, ins[i].e).Raised?;
    DeletedExactly(job, cs, ins, i);
  }

  /** No run ever stores a process to be rescheduled, so the rescheduling mode of the schedule stage is never
    entered by the driver. */
  lemma NeverReschedules(job: Job, cs: seq<Ctx>, ins: seq<Input>, i: nat)
    requires IsRun(job, cs, ins) && i < |cs| && !cs[i].deleted
    ensures cs[i].s.procs2bRescheduled.GetOr([]) == [] && cs[i].s.failedNodes.GetOr([]) == []
    ensures forall p :: p in cs[i].s.allProcesses.GetOr([]) ==> p.status in {Ready, Running, Completed}
  {
    var s := cs[i].s;
    RunInvariant(job, cs, ins, i);
    var ph :| InPhase(s, ph);
    var all := s.allProcesses.GetOr([]);
    if ph !in {Fresh, Configured, Stranded, Booting} {
      TablesInPhase(s, ph);
    }
  }

  lemma TablesInPhase(s: Settings, ph: Phase)
    requires InPhase(s, ph) && ph !in {Fresh, Configured, Stranded, Booting}
    ensures TableAgreement(s)
    ensures forall p :: p in s.currentProcesses.GetOr([]) ==> p.status in {Ready, Running, Completed}
    ensures forall p :: p in s.allProcesses.GetOr([]) ==> p.status in {Ready, Running, Completed}
  {
    var h, ps := History(s), s.currentProcesses.GetOr([]);
    assert forall p :: p in s.allProcesses.GetOr([]) ==> p in h || p in ps;
  }

  lemma RunsLeftInPhase(s: Settings, ph: Phase)
    requires InPhase(s, ph)
    ensures s.runsLeft.Some? ==> s.runsLeft.value == Count(s.currentProcesses.GetOr([]), Running)
  {
    if s.runsLeft.Some? {
      CountZero(s.currentProcesses.GetOr([]), Running);
    }
  }

  /** In every state of every run: the history table is completed records followed by the current table, the
    ids of the whole table are 1 up to the schedule index, and the stored number of runs left is the number of
    running records. */
  lemma TablesAgree(job: Job, cs: seq<Ctx>, ins: seq<Input>, i: nat)
    requires IsRun(job, cs, ins) && i < |cs| && !cs[i].deleted
    ensures TableAgreement(cs[i].s)
    ensures cs[i].s.runsLeft.Some? ==> cs[i].s.runsLeft.value == Count(cs[i].s.currentProcesses.GetOr([]), Running)
  {
    var s := cs[i].s;
    RunInvariant(job, cs, ins, i);
    var ph :| InPhase(s, ph);
    RunsLeftInPhase(s, ph);
    if ph !in {Fresh, Configured, Stranded, Booting} {
      TablesInPhase(s, ph);
    }
  }

  /** Once every process of an iteration is launched, the runs left are 0 exactly when all of them are completed;
    until then the list of finished processes holds exactly the completed records, and at 0 it is cleared. */
  lemma RunsLeftExact(job: Job, cs: seq<Ctx>, ins: seq<Input>, i: nat)
    requires IsRun(job, cs, ins) && i < |cs| && !cs[i].deleted
    requires cs[i].s.runsLeft.Some? && Count(cs[i].s.currentProcesses.GetOr([]), Ready) == 0
    ensures cs[i].s.runsLeft == Some(0) <==> AllStatus(cs[i].s.currentProcesses.GetOr([]), Completed)
    ensures cs[i].s.runsLeft != Some(0) ==>
              FinishedAre(cs[i].s.finishedNodes.GetOr([]), cs[i].s.currentProcesses.GetOr([]))
    ensures cs[i].s.runsLeft == Some(0) && !IsSet(cs[i].s.converged) ==> cs[i].s.finishedNodes == Some([])
  {
    var s := cs[i].s;
    RunInvariant(job, cs, ins, i);
    var ph :| InPhase(s, ph);
    RunsLeftInPhase(s, ph);
    CountZero(s.currentProcesses.GetOr([]), Running);
  }

  /** Schedule completion is exact: after every completion poll the stored total is the number of current processes
    whose node has confirmed, no node being counted twice; so the schedule is marked complete exactly when every
    process's node has confirmed. */
  lemma ScheduleCompletesExactly(job: Job, cs: seq<Ctx>, ins: seq<Input>, i: nat)
    requires IsRun(job, cs, ins) && i < |ins| && !cs[i].deleted && !cs[i + 1].deleted
    requires Triggered(Schedule, cs[i].s) && IsSet(cs[i].s.scheduleStarted)
    ensures var ps, nodes := cs[i + 1].s.currentProcesses.GetOr([]), cs[i + 1].s.scheduledNodes.GetOr([]);
            && ps == cs[i].s.currentProcesses.GetOr([]) && DistinctIps(nodes)
            && cs[i + 1].s.totalScheduledProcs == Some(CountCovered(ps, Ips(nodes)))
            && (cs[i + 1].s.scheduleCompleted == Some(1) <==> forall k :: 0 <= k < |ps| ==> ps[k].ip in Ips(nodes))
  {
    var s, e := cs[i].s, ins[i].e;
    RunInvariant(job, cs, ins, i);
    var ph :| InPhase(s, ph);
    PhaseTriggers(s, ph, Schedule);
    DriveIsNext(job, s, ph, e, ins[i].order);
    assert ph == Confirming;
    CompleteStep(job, s, e);
    CompleteTotal(s, e);
    var ps, nodes := s.currentProcesses.value, CompleteScheduleRun(s, e).scheduledNodes.value;
    CoveredCounts(ps, nodes);
    CoveredAll(ps, Ips(nodes));
  }

  // ---------------------------------------------------------------------------------------------------------
  // Numbering

  /** The counter execute continues from, relative to the ids the scheduler has handed out: one past them all,
    except between the schedule of an iteration and its first launch pass, where it is the first id of the
    current table. */
  ghost predicate Numbered(s: Settings) {
    var pending := s.scheduleStarted == Some(1) && s.currentProcesses.GetOr([]) != [] && s.runsLeft.None?;
    s.initialNumbfile.GetOr(1) == s.scheduleIndex.GetOr(0) + 1 - if pending then |s.currentProcesses.GetOr([])| else 0
  }

  /** The sweep map and the input directories are still those the iteration was scheduled for. */
  ghost predicate SameSweep(job: Job, s: Settings, e: Env) {
    Triggered(Execute, s) ==> TotalProcs(job, e) == |s.currentProcesses.value| && e.inputDirs > 0
  }

  lemma NumberedLaunch(job: Job, s: Settings, e: Env)
    requires job.inputs && InPhase(s, Launching) && Numbered(s) && SameSweep(job, s, e)
    requires ExecuteTriggered(s) && ExecuteRun(job, s, e).Ok?
    ensures Numbered(ExecuteRun(job, s, e).s)
  {
    ExecuteStores(job, s, e);
    CountZero(s.currentProcesses.value, Failed);
    if s.runsLeft.Some? {
      NoMatchAgain(job, s, e);
    }
  }

  lemma NumberedSchedule(job: Job, s: Settings, ph: Phase, e: Env)
    requires ph in {Idle, Confirming} && InPhase(s, ph) && Numbered(s)
    requires ScheduleTriggered(s) && ScheduleRun(job, s, e).Ok?
    ensures Numbered(ScheduleRun(job, s, e).s)
  {
    if ph == Idle {
      RoundRobinIds(s.bootstrappedNodes.value, TotalProcs(job, e), ScheduleIndex(s), job.maximumRetry);
    } else {
      CompleteStep(job, s, e);
    }
  }

  lemma NumberedWait(s: Settings, e: Env)
    requires InPhase(s, Waiting) && Numbered(s) && WaitTriggered(s) && WaitRun(s, e).Ok?
    ensures Numbered(WaitRun(s, e).s)
  {
    WaitCounts(s, e);
    hide InPhase, WaitRun;
  }

  lemma NumberedElsewhere(job: Job, s: Settings, ph: Phase, e: Env)
    requires ph in {Fresh, Configured, Booting, Collected, Transformed, Converged} && InPhase(s, ph) && Numbered(s)
    requires Triggered(StageOf(ph).value, s) && Run(job, StageOf(ph).value, s, e).Ok?
    ensures Numbered(Run(job, StageOf(ph).value, s, e).s)
  {
    hide Iterating, TableAgreement, Booted, HasNodes, AllStatus, Confirm, DistinctIps, IpsWithin;
  }

  lemma NumberedNext(job: Job, s: Settings, ph: Phase, e: Env)
    requires job.inputs && InPhase(s, ph) && Numbered(s) && SameSweep(job, s, e)
    requires StageOf(ph).Some? && Triggered(StageOf(ph).value, s) && Run(job, StageOf(ph).value, s, e).Ok?
    ensures Numbered(Run(job, StageOf(ph).value, s, e).s)
  {
    hide InPhase, Numbered, SameSweep, ExecuteRun, ScheduleRun, WaitRun, ConvergeRun, BootstrapRun;
    if ph == Launching {
      NumberedLaunch(job, s, e);
    } else if ph in {Idle, Confirming} {
      NumberedSchedule(job, s, ph, e);
    } else if ph == Waiting {
      NumberedWait(s, e);
    } else {
      NumberedElsewhere(job, s, ph, e);
    }
  }

  /** On the first launch pass of an iteration the generated run counters are exactly the ids of the current
    table, each once and in order. */
  lemma CountersAreIds(job: Job, s: Settings, e: Env)
    requires job.inputs && InPhase(s, Launching) && s.runsLeft.None? && Numbered(s) && SameSweep(job, s, e)
    ensures ExecuteTriggered(s) && TotalProcs(job, e) == |s.currentProcesses.value|
    ensures forall k :: 0 <= k < |s.currentProcesses.value| ==>
              s.currentProcesses.value[k].id == s.initialNumbfile.GetOr(1) + k
    ensures CountersMatch(s.currentProcesses.value, s.initialNumbfile.GetOr(1), TotalProcs(job, e))
  {
    PhaseTriggers(s, Launching, Execute);
    TableIds(s);
    var ps, numb := s.currentProcesses.value, s.initialNumbfile.GetOr(1);
    forall c | numb <= c < numb + |ps| ensures ReadyWithId(ps, c) {
      assert ps[c - numb].status == Ready && ps[c - numb].id == c;
    }
  }

  /** On a later pass of the same iteration no generated counter names a process. */
  lemma NoMatchAgain(job: Job, s: Settings, e: Env)
    requires job.inputs && InPhase(s, Launching) && s.runsLeft.Some? && Numbered(s) && SameSweep(job, s, e)
    ensures ExecuteTriggered(s) && ExecuteRun(job, s, e).Raised?
  {
    PhaseTriggers(s, Launching, Execute);
    TableIds(s);
    var ps, numb := s.currentProcesses.value, s.initialNumbfile.GetOr(1);
    CountZero(ps, Failed);
    assert !ReadyWithId(ps, numb) by {
      assert |History(s)| + |ps| == s.scheduleIndex.GetOr(0);
    }
  }

  ghost predicate SweepStable(job: Job, cs: seq<Ctx>, ins: seq<Input>)
    requires |cs| == |ins| + 1
  {
    forall i :: 0 <= i < |ins| ==> SameSweep(job, cs[i].s, ins[i].e)
  }

  lemma {:induction false} RunNumbered(job: Job, cs: seq<Ctx>, ins: seq<Input>, i: nat)
    requires job.inputs && IsRun(job, cs, ins) && SweepStable(job, cs, ins) && i < |cs|
    ensures cs[i].deleted || Numbered(cs[i].s)
  {
    if i > 0 {
      RunNumbered(job, cs, ins, i - 1);
      var c, e := cs[i - 1], ins[i - 1].e;
      if !c.deleted {
        RunInvariant(job, cs, ins, i - 1);
        var ph :| InPhase(c.s, ph);
        DriveIsNext(job, c.s, ph, e, ins[i - 1].order);
        if StageOf(ph).Some? {
          PhaseTriggers(c.s, ph, StageOf(ph).value);
          if Run(job, StageOf(ph).value, c.s, e).Ok? {
            NumberedNext(job, c.s, ph, e);
          }
        }
      }
    }
  }

  /** Numbering stays aligned over all iterations of a job with inputs: whenever the schedule of an iteration is
    about to start, the next counter is one past the ids handed out; and a launch pass finds its process for
    every counter it generates exactly when it is the first of its iteration. */
  lemma NumberingAligned(job: Job, cs: seq<Ctx>, ins: seq<Input>, i: nat)
    requires job.inputs && IsRun(job, cs, ins) && SweepStable(job, cs, ins) && i < |ins| && !cs[i].deleted
    ensures (Triggered(Schedule, cs[i].s) && !IsSet(cs[i].s.scheduleStarted))
              ==> cs[i].s.initialNumbfile.GetOr(1) == cs[i].s.scheduleIndex.GetOr(0) + 1
    ensures Triggered(Execute, cs[i].s) ==>
              (CountersMatch(cs[i].s.currentProcesses.value, cs[i].s.initialNumbfile.GetOr(1),
                             TotalProcs(job, ins[i].e))
               <==> cs[i].s.runsLeft.None?)
    ensures Triggered(Execute, cs[i].s) && cs[i].s.runsLeft.Some? ==> cs[i + 1].deleted
  {
    var s, e := cs[i].s, ins[i].e;
    RunInvariant(job, cs, ins, i);
    RunNumbered(job, cs, ins, i);
    var ph :| InPhase(s, ph);
    PhaseTriggers(s, ph, Schedule);
    PhaseTriggers(s, ph, Execute);
    if ph == Launching {
      if s.runsLeft.None? {
        CountersAreIds(job, s, e);
      } else {
        NoMatchAgain(job, s, e);
        CountZero(s.currentProcesses.value, Failed);
        assert Triggered(Execute, s) && Run(job, Execute, s, e).Raised?;
        DeletedExactly(job, cs, ins, i);
      }
    }
  }

  // ---------------------------------------------------------------------------------------------------------
  // When every launch succeeds

  ghost predicate LaunchesAll(s: Settings, e: Env) {
    Triggered(Execute, s) ==> forall p :: p in s.currentProcesses.value ==> p.id in e.launched
  }

  ghost predicate AllLaunch(cs: seq<Ctx>, ins: seq<Input>)
    requires |cs| == |ins| + 1
  {
    forall i :: 0 <= i < |ins| ==> LaunchesAll(cs[i].s, ins[i].e)
  }

  /** The next launch pass is the first of its iteration. */
  ghost predicate FirstPass(s: Settings) {
    Triggered(Execute, s) ==> s.runsLeft.None?
  }

  lemma NoneReady(ps: seq<Rec>, launched: set<nat>)
    requires forall p :: p in ps ==> p.id in launched
    ensures Count(LaunchCurrent(ps, launched), Ready) == 0
  {
    var ps' := LaunchCurrent(ps, launched);
    forall k | 0 <= k < |ps'| ensures ps'[k].status != Ready {
      assert ps[k] in ps;
    }
    CountZero(ps', Ready);
  }

  lemma LaunchedOnce(job: Job, s: Settings, e: Env)
    requires InPhase(s, Launching) && ExecuteTriggered(s) && ExecuteRun(job, s, e).Ok? && LaunchesAll(s, e)
    ensures InPhase(ExecuteRun(job, s, e).s, Waiting)
  {
    ExecuteStores(job, s, e);
    ExecuteStoredPhase(job, s, e);
    NoneReady(s.currentProcesses.value, e.launched);
    hide ExecuteRun, ExecuteTriggered, Count, FullyScheduled, LaunchCurrent, UploadsInputs;
    assert !InPhase(ExecuteStored(job, s, e), Launching);
    hide InPhase, ExecuteStored;
  }

  lemma NotLaunching(s: Settings, ph: Phase)
    requires InPhase(s, ph) && ph != Launching
    ensures FirstPass(s)
  {
    PhaseTriggers(s, ph, Execute);
  }

  lemma FirstPassConfirm(job: Job, s: Settings, e: Env)
    requires InPhase(s, Confirming) && ScheduleTriggered(s)
    ensures ScheduleRun(job, s, e).Ok? ==> FirstPass(ScheduleRun(job, s, e).s)
  {
    CompleteStep(job, s, e);
    hide InPhase, ExecuteTriggered, ScheduleTriggered, ScheduleRun;
    assert CompleteScheduleRun(s, e).runsLeft == s.runsLeft;
    NotStarted(s);
  }

  lemma NotStarted(s: Settings)
    requires InPhase(s, Confirming)
    ensures s.runsLeft.None?
  {
  }

  lemma FirstPassWait(s: Settings, e: Env)
    requires InPhase(s, Waiting) && WaitTriggered(s)
    ensures WaitRun(s, e).Ok? ==> FirstPass(WaitRun(s, e).s)
  {
    WaitStep(s, e);
    hide InPhase, WaitRun, FirstPass;
    if WaitRun(s, e).Ok? {
      var s' := WaitRun(s, e).s;
      NotLaunching(s', if InPhase(s', Waiting) then Waiting else Collected);
    }
  }

  lemma FirstPassWork(job: Job, s: Settings, ph: Phase, e: Env)
    requires ph in {Idle, Confirming, Launching, Waiting} && InPhase(s, ph) && LaunchesAll(s, e)
    requires Triggered(StageOf(ph).value, s) && Run(job, StageOf(ph).value, s, e).Ok?
    ensures FirstPass(Run(job, StageOf(ph).value, s, e).s)
  {
    hide InPhase, FirstPass, LaunchesAll, ScheduleRun, ExecuteRun, WaitRun;
    var s' := Run(job, StageOf(ph).value, s, e).s;
    if ph == Idle {
      NotLaunching(s', Confirming) by { StartStep(job, s, e); }
    } else if ph == Confirming {
      FirstPassConfirm(job, s, e);
    } else if ph == Launching {
      NotLaunching(s', Waiting) by { LaunchedOnce(job, s, e); }
    } else {
      FirstPassWait(s, e);
    }
  }

  lemma FirstPassEarly(job: Job, s: Settings, ph: Phase, e: Env)
    requires ph in {Fresh, Configured, Booting} && InPhase(s, ph)
    requires Triggered(StageOf(ph).value, s) && Run(job, StageOf(ph).value, s, e).Ok?
    ensures FirstPass(Run(job, StageOf(ph).value, s, e).s)
  {
    assert s.scheduleCompleted.None?;
    hide Confirm, HasNodes, DistinctIps, IpsWithin, CreatedNodes;
  }

  lemma FirstPassLate(job: Job, s: Settings, ph: Phase, e: Env)
    requires ph in {Collected, Transformed, Converged} && InPhase(s, ph)
    requires Triggered(StageOf(ph).value, s) && Run(job, StageOf(ph).value, s, e).Ok?
    ensures FirstPass(Run(job, StageOf(ph).value, s, e).s)
  {
    hide InPhase, FirstPass, TransformRun, ConvergeRun, DestroyRun;
    var s' := Run(job, StageOf(ph).value, s, e).s;
    if ph == Collected {
      NotLaunching(s', Transformed) by { TransformStep(s); }
    } else if ph == Transformed {
      NotLaunching(s', if e.done then Converged else Idle) by { ConvergeStep(s, e); }
    } else {
      NotLaunching(s', Finished) by { DestroyStep(job, s); }
    }
  }

  lemma {:induction false} AlwaysFirstPass(job: Job, cs: seq<Ctx>, ins: seq<Input>, i: nat)
    requires IsRun(job, cs, ins) && AllLaunch(cs, ins) && i < |cs|
    ensures cs[i].deleted || FirstPass(cs[i].s)
  {
    if i > 0 {
      AlwaysFirstPass(job, cs, ins, i - 1);
      var c, e := cs[i - 1], ins[i - 1].e;
      if !c.deleted {
        RunInvariant(job, cs, ins, i - 1);
        var ph :| InPhase(c.s, ph);
        DriveIsNext(job, c.s, ph, e, ins[i - 1].order);
        if StageOf(ph).Some? {
          PhaseTriggers(c.s, ph, StageOf(ph).value);
          if Run(job, StageOf(ph).value, c.s, e).Ok? {
            hide InPhase, Run, FirstPass, LaunchesAll;
            if ph in {Idle, Confirming, Launching, Waiting} {
              FirstPassWork(job, c.s, ph, e);
            } else if ph in {Fresh, Configured, Booting} {
              FirstPassEarly(job, c.s, ph, e);
            } else {
              FirstPassLate(job, c.s, ph, e);
            }
          }
        }
      }
    }
  }

  /** In a run in which every launch succeeds, every launch pass is the first of its iteration. So, with inputs and a
    stable sweep, every counter of every launch pass has its process: the branch without one is never taken. */
  lemma AllLaunchesAlign(job: Job, cs: seq<Ctx>, ins: seq<Input>, i: nat)
    requires IsRun(job, cs, ins) && AllLaunch(cs, ins) && i < |ins| && !cs[i].deleted
    requires Triggered(Execute, cs[i].s)
    ensures cs[i].s.runsLeft.None?
    ensures job.inputs && SweepStable(job, cs, ins) ==>
              CountersMatch(cs[i].s.currentProcesses.value, cs[i].s.initialNumbfile.GetOr(1), TotalProcs(job, ins[i].e))
  {
    AlwaysFirstPass(job, cs, ins, i);
    if job.inputs && SweepStable(job, cs, ins) {
      NumberingAligned(job, cs, ins, i);
    }
  }
}

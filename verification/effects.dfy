/** What each step of a run does to the settings, and when it raises: said of the settings before and after it, of the
  machines, the sweep map and the answers of the outside world, without the functions the stages are defined by. */
module StageEffects {
  import opened Records
  import opened Scheduler
  import opened JobState
  import opened TableLemmas
  import opened JobInvariant
  import opened JobSteps
  import opened JobRuns
  import Sweep
  import Rounds = RescheduleRound
  import WaitPass

  ghost predicate Configures(s: Settings, s': Settings) {
    s' == s.(configureDone := Some(1))
  }

  /** One running node a machine. */
  ghost predicate Creates(s: Settings, e: Env, s': Settings) {
    && s'.createdNodes.Some? && |s'.createdNodes.value| == |e.machines|
    && (forall k :: 0 <= k < |e.machines| ==>
          var m := e.machines[k]; s'.createdNodes.value[k] == Node(m.nid, m.ip, m.region, NodeRunning))
    && s' == s.(createDone := Some(1), createdNodes := s'.createdNodes)
  }

  /** The first pass starts the machines; every later one adds those that answer, and is the last one when they are
    as many as there are machines. */
  ghost predicate Boots(s: Settings, e: Env, s': Settings) {
    var known := s.bootstrappedNodes.GetOr([]);
    if s.bootStarted.None? then
      s' == s.(bootStarted := Some(1), bootstrappedNodes := Some(known), systemId := Some(0))
    else
      && s.createdNodes.Some? && s'.bootstrappedNodes.Some?
      && (exists at :: Adds(s.createdNodes.value, e.booted, known, s'.bootstrappedNodes.value, at))
      && s' == s.(bootstrappedNodes := s'.bootstrappedNodes, systemId := Some(0),
                  bootstrapDone := if |s'.bootstrappedNodes.value| == |s.createdNodes.value| then Some(1)
                                   else s.bootstrapDone)
  }

  /** The record of process number `i` of `total`: the first nodes take one process more than the others where they
    cannot all take equally many, each takes consecutive ones, and no more nodes are used than there are processes. */
  ghost predicate Dealt(p: Rec, i: nat, total: nat, nodes: seq<Node>, id: nat, status: Status, retry: int)
    requires nodes != [] && i < total
  {
    var u := if |nodes| < total then |nodes| else total;
    var q, r := total / u, total % u;
    && q > 0
    && var slot := if i < r * (q + 1) then i / (q + 1) else r + (i - r * (q + 1)) / q;
       0 <= slot < |nodes| && p == Rec(id, nodes[slot].ip, status, retry)
  }

  /** As many new records as the sweep map has combinations, for each input directory if there are any, with the next
    ids; they become the current table and join the history. */
  ghost predicate Hands(job: Job, s: Settings, e: Env, s': Settings) {
    var total := |Sweep.Product(Sweep.Ranges(e.sweep))| * if job.inputs then e.inputDirs else 1;
    var all, nodes, ps := s.allProcesses.GetOr([]), s.bootstrappedNodes.GetOr([]), s'.currentProcesses.GetOr([]);
    && total > 0 && nodes != [] && |ps| == total
    && (forall i :: 0 <= i < total ==> Dealt(ps[i], i, total, nodes, |all| + 1 + i, Ready, job.maximumRetry))
    && s' == s.(currentProcesses := Some(ps), allProcesses := Some(all + ps),
                totalProcesses := Some(total), scheduleIndex := Some(s.scheduleIndex.GetOr(0) + total),
                scheduleStarted := Some(1), procs2bRescheduled := Some([]), scheduledNodes := Some([]),
                rescheduledNodes := Some(s.rescheduledNodes.GetOr([])))
  }

  /** The nodes that answer are confirmed, and the total is the number of processes on confirmed nodes. */
  ghost predicate Confirms(s: Settings, e: Env, s': Settings) {
    var ps, nodes := s.currentProcesses.GetOr([]), s'.scheduledNodes.GetOr([]);
    var total := |set k | 0 <= k < |ps| && ps[k].ip in Ips(nodes)|;
    && (exists at ::
          Adds(s.bootstrappedNodes.GetOr([]), e.scheduled, s.scheduledNodes.GetOr([]), nodes, at))
    && s' == s.(scheduledNodes := Some(nodes), totalScheduledProcs := Some(total),
                scheduleCompleted := if total == |ps| then Some(1) else s.scheduleCompleted,
                rescheduledNodes := Some(s.rescheduledNodes.GetOr([])))
  }

  /** The history with the records of the current table at its end. */
  ghost predicate HistoryOf(s: Settings, s': Settings) {
    var all, all' := s.allProcesses.GetOr([]), s'.allProcesses.GetOr([]);
    var ps, ps' := s.currentProcesses.GetOr([]), s'.currentProcesses.GetOr([]);
    |ps| <= |all| && s'.allProcesses.Some? && all' == all[..|all| - |ps|] + ps'
  }

  /** A ready process whose launch succeeds is running, in both tables; nothing else happens to a record. */
  ghost predicate Launches(job: Job, s: Settings, e: Env, s': Settings) {
    var total := |Sweep.Product(Sweep.Ranges(e.sweep))| * e.inputDirs;
    var ps, ps' := s.currentProcesses.GetOr([]), s'.currentProcesses.GetOr([]);
    && |ps'| == |ps| && HistoryOf(s, s')
    && (forall k :: 0 <= k < |ps| ==>
          ps'[k] == if ps[k].status == Ready && ps[k].id in e.launched then ps[k].(status := Running) else ps[k])
    && s' == s.(currentProcesses := Some(ps'), allProcesses := s'.allProcesses, executedProcs := Some([]),
                runsLeft := Some(|set k | 0 <= k < |ps'| && ps'[k].status == Running|),
                initialNumbfile := Some(s.initialNumbfile.GetOr(1) + if job.inputs then total else 0))
  }

  /** The places, in order, of the running records that report. */
  ghost predicate Reporting(ps: seq<Rec>, finished: set<nat>, at: seq<nat>) {
    && (forall k :: 0 <= k < |at| ==> at[k] < |ps|)
    && (forall k, l :: 0 <= k < l < |at| ==> at[k] < at[l])
    && (forall j :: 0 <= j < |ps| ==> (j in at <==> ps[j].status == Running && ps[j].id in finished))
  }

  /** A running process that reports is completed, in both tables, and its record joins the finished ones, which are
    cleared when none is running any more. */
  ghost predicate Collects(s: Settings, e: Env, s': Settings) {
    var ps, ps' := s.currentProcesses.GetOr([]), s'.currentProcesses.GetOr([]);
    var left := |set k | 0 <= k < |ps'| && ps'[k].status == Running|;
    var finished, finished' := s.finishedNodes.GetOr([]), s'.finishedNodes.GetOr([]);
    && |ps'| == |ps| && HistoryOf(s, s')
    && (forall k :: 0 <= k < |ps| ==>
          ps'[k] == if ps[k].status == Running && ps[k].id in e.finished then ps[k].(status := Completed) else ps[k])
    && (if left == 0 then finished' == []
        else exists at :: && Reporting(ps, e.finished, at) && |finished'| == |finished| + |at| && finished <= finished'
                          && forall k :: 0 <= k < |at| ==> finished'[|finished| + k] == ps'[at[k]])
    && s' == s.(currentProcesses := Some(ps'), allProcesses := s'.allProcesses, executedProcs := Some([]),
                runsLeft := Some(left), errorNodes := Some(left), finishedNodes := Some(finished'))
  }

  ghost predicate Transforms(s: Settings, s': Settings) {
    s' == s.(transformed := Some(1))
  }

  /** The end of the run, or the next iteration: nothing is current, scheduled or started, the history, the schedule
    index and the counter of the variations stay. */
  ghost predicate Converges(s: Settings, e: Env, s': Settings) {
    && s.systemId.Some?
    && if e.done then s' == s.(transformed := None, systemId := Some(s.systemId.value + 1), converged := Some(1))
       else
         s' == s.(transformed := None, systemId := Some(s.systemId.value + 1), converged := Some(0),
                  currentProcesses := Some([]), scheduledNodes := Some([]), totalScheduledProcs := Some(0),
                  scheduleStarted := Some(0), scheduleCompleted := Some(0), executedProcs := Some([]),
                  runsLeft := None, errorNodes := None)
  }

  /** On a cloud, the same nodes with none of them running; on a cluster, the same nodes. */
  ghost predicate Ends(job: Job, before: Option<seq<Node>>, after: Option<seq<Node>>) {
    && after.Some? && |after.value| == |before.GetOr([])|
    && forall k :: 0 <= k < |after.value| ==>
         var n, n' := before.GetOr([])[k], after.value[k];
         && n'.nid == n.nid && n'.ip == n.ip && n'.region == n.region
         && n'.state == if job.cloud && n.state == NodeRunning then NodeTerminated else n.state
  }

  ghost predicate Destroys(job: Job, s: Settings, s': Settings) {
    && Ends(job, s.createdNodes, s'.createdNodes) && Ends(job, s.scheduledNodes, s'.scheduledNodes)
    && Ends(job, s.bootstrappedNodes, s'.bootstrappedNodes)
    && s' == s.(runFinished := Some(1), createdNodes := s'.createdNodes, scheduledNodes := s'.scheduledNodes,
                bootstrappedNodes := s'.bootstrappedNodes)
  }

  ghost predicate Effect(job: Job, st: Stage, s: Settings, e: Env, s': Settings) {
    match st
    case Configure => Configures(s, s')
    case Create => Creates(s, e, s')
    case Bootstrap => Boots(s, e, s')
    case Schedule => if IsSet(s.scheduleStarted) then Confirms(s, e, s') else Hands(job, s, e, s')
    case Execute => Launches(job, s, e, s')
    case Wait => Collects(s, e, s')
    case Transform => Transforms(s, s')
    case Converge => Converges(s, e, s')
    case Destroy => Destroys(job, s, s')
  }

  /** Why a step of a run raises other than for a reason of its own. There is nothing to schedule; a variation has no
    process that waits to be launched; a running process cannot be reached. */
  ghost predicate Fails(job: Job, st: Stage, s: Settings, e: Env) {
    var ps := s.currentProcesses.GetOr([]);
    match st
    case Schedule =>
      && !IsSet(s.scheduleStarted)
      && ((exists k :: 0 <= k < |e.sweep| && e.sweep[k].1 == []) || (job.inputs && e.inputDirs == 0))
    case Execute =>
      && job.inputs
      && var numb, total := s.initialNumbfile.GetOr(1), |Sweep.Product(Sweep.Ranges(e.sweep))| * e.inputDirs;
         e.inputDirs == 0 || exists c :: numb <= c < numb + total && NoneReady(ps, c)
    case Wait => exists k :: 0 <= k < |ps| && ps[k].status == Running && ps[k].id in e.unreachable
    case _ => false
  }

  ghost predicate NoneReady(ps: seq<Rec>, id: int) {
    forall k :: 0 <= k < |ps| ==> !(ps[k].id == id && ps[k].status == Ready)
  }

  // ---------------------------------------------------------------------------------------------------------
  // Setting up

  lemma BootsEffect(s: Settings, e: Env)
    requires InPhase(s, Booting) && BootstrapTriggered(s)
    ensures Boots(s, e, BootstrapRun(s, e))
  {
    var created, known := s.createdNodes.value, s.bootstrappedNodes.GetOr([]);
    RunningNodesAll(s);
    ConfirmKeeps(created, e.booted, known);
    hide Confirm, DistinctIps, Answered, Adds;
  }

  // ---------------------------------------------------------------------------------------------------------
  // Scheduling

  lemma AllDealt(job: Job, nodes: seq<Node>, total: nat, index: nat)
    requires nodes != [] && total > 0
    ensures var ps := RoundRobin(nodes, total, index, job.maximumRetry);
            && |ps| == total
            && forall i :: 0 <= i < total ==> Dealt(ps[i], i, total, nodes, index + 1 + i, Ready, job.maximumRetry)
  {
    var ps := RoundRobin(nodes, total, index, job.maximumRetry);
    RoundRobinIds(nodes, total, index, job.maximumRetry);
    hide RoundRobin;
    forall i | 0 <= i < total ensures Dealt(ps[i], i, total, nodes, index + 1 + i, Ready, job.maximumRetry) {
      RoundRobinAt(nodes, total, index, job.maximumRetry, i);
    }
  }

  lemma HandsEffect(job: Job, s: Settings, e: Env)
    requires InPhase(s, Idle) && ScheduleTriggered(s) && ScheduleRun(job, s, e).Ok?
    ensures Hands(job, s, e, ScheduleRun(job, s, e).s)
  {
    Counted(job, e);
    AllDealt(job, s.bootstrappedNodes.value, TotalProcs(job, e), ScheduleIndex(s));
    hide RoundRobin, TotalProcs, Dealt, DistinctIps;
  }

  lemma ConfirmsEffect(job: Job, s: Settings, e: Env)
    requires InPhase(s, Confirming) && ScheduleTriggered(s)
    ensures ScheduleRun(job, s, e).Ok? && Confirms(s, e, ScheduleRun(job, s, e).s)
  {
    var s' := CompleteScheduleRun(s, e);
    var ps, nodes := s.currentProcesses.value, s'.scheduledNodes.value;
    CompleteStep(job, s, e);
    CompleteTotal(s, e);
    var at := ConfirmPlaces(s.bootstrappedNodes.value, e.scheduled, s.scheduledNodes.GetOr([]));
    CoveredCounts(ps, nodes);
    CoveredPlaces(ps, Ips(nodes));
    hide Confirm, AddConfirmed, Covered, CountCovered, DistinctIps, Adds, TableAgreement, IpsWithin, AllStatus;
    assert Adds(s.bootstrappedNodes.GetOr([]), e.scheduled, s.scheduledNodes.GetOr([]), nodes, at);
  }

  // ---------------------------------------------------------------------------------------------------------
  // Launching and waiting

  lemma LaunchesStored(job: Job, s: Settings, e: Env)
    requires ExecuteTriggered(s) && |s.currentProcesses.value| <= |s.allProcesses.GetOr([])|
    requires Count(s.currentProcesses.value, Failed) == 0
    ensures Launches(job, s, e, ExecuteStored(job, s, e))
  {
    Counted(job, e);
    CountPlaces(LaunchCurrent(s.currentProcesses.value, e.launched), Running);
    hide Count, TotalProcs, ExecuteTriggered;
  }

  lemma NoneFailed(s: Settings)
    requires InPhase(s, Launching)
    ensures s.currentProcesses.Some? && |s.currentProcesses.value| <= |s.allProcesses.GetOr([])|
    ensures Count(s.currentProcesses.value, Failed) == 0
  {
    CountZero(s.currentProcesses.value, Failed);
    hide Count, DistinctIps, AllRunning;
  }

  lemma LaunchesEffect(job: Job, s: Settings, e: Env)
    requires InPhase(s, Launching) && ExecuteTriggered(s) && ExecuteRun(job, s, e).Ok?
    ensures Launches(job, s, e, ExecuteRun(job, s, e).s)
  {
    hide *;
    NoneFailed(s);
    ExecuteStores(job, s, e);
    LaunchesStored(job, s, e);
  }

  lemma LaunchFails(job: Job, s: Settings, e: Env)
    requires InPhase(s, Launching) && ExecuteTriggered(s)
    ensures ExecuteRun(job, s, e).Raised? <==> Fails(job, Execute, s, e)
  {
    var ps, numb := s.currentProcesses.value, s.initialNumbfile.GetOr(1);
    var total := TotalProcs(job, e);
    Counted(job, e);
    CountZero(ps, Failed);
    hide Count, TotalProcs;
    if job.inputs && e.inputDirs > 0 {
      CountersAll(ps, numb, total);
    }
    hide InPhase, NoneReady, CountersMatch;
  }

  lemma CountersAll(ps: seq<Rec>, numb: int, total: nat)
    ensures CountersMatch(ps, numb, total) <==> !exists c :: numb <= c < numb + total && NoneReady(ps, c)
  {
    forall c ensures ReadyWithId(ps, c) <==> !NoneReady(ps, c) {
    }
  }

  lemma ReportingSnoc(ps: seq<Rec>, p: Rec, finished: set<nat>, at: seq<nat>)
    requires Reporting(ps, finished, at)
    ensures Reporting(ps + [p], finished,
                      if p.status == Running && p.id in finished then at + [|ps|] else at)
  {
  }

  lemma ReportedOne(ps: seq<Rec>, p: Rec, finished: set<nat>)
    ensures Reported(ps + if p.status == Running then [p] else [], finished)
         == Reported(ps, finished)
          + if p.status == Running && p.id in finished then [p.(status := Completed)] else []
  {
    WaitPass.ReportedSnoc(ps, p, finished);
    assert ps + [] == ps && Reported(ps, finished) + [] == Reported(ps, finished);
  }

  /** The reports are the completions of the records at the places. */
  ghost predicate ReportsAt(r: seq<Rec>, ps: seq<Rec>, at: seq<nat>) {
    |r| == |at| && forall k :: 0 <= k < |at| ==> at[k] < |ps| && r[k] == ps[at[k]].(status := Completed)
  }

  lemma ReportsAtSnoc(r: seq<Rec>, ps: seq<Rec>, p: Rec, at: seq<nat>)
    requires ReportsAt(r, ps, at)
    ensures ReportsAt(r + [], ps + [p], at) && ReportsAt(r + [p.(status := Completed)], ps + [p], at + [|ps|])
  {
  }

  lemma RunningLast(ps: seq<Rec>, p: Rec)
    ensures RunningRecs(ps + [p]) == RunningRecs(ps) + if p.status == Running then [p] else []
  {
    assert (ps + [p])[..|ps| + 1] == ps + [p] && (ps + [p])[..|ps|] == ps;
    WaitPass.RunningRecsSnoc(ps + [p], |ps|);
  }

  lemma NoReports(finished: set<nat>)
    ensures Reporting([], finished, []) && ReportsAt(Reported(RunningRecs([]), finished), [], [])
  {
  }

  lemma {:induction false} ReportPlaces(ps: seq<Rec>, finished: set<nat>) returns (at: seq<nat>)
    ensures Reporting(ps, finished, at) && ReportsAt(Reported(RunningRecs(ps), finished), ps, at)
  {
    hide *;
    if ps == [] {
      at := [];
      NoReports(finished);
    } else {
      var n := |ps| - 1;
      var was, p := ps[..n], ps[n];
      assert ps == was + [p];
      var before := ReportPlaces(was, finished);
      RunningLast(was, p);
      ReportedOne(RunningRecs(was), p, finished);
      ReportingSnoc(was, p, finished, before);
      ReportsAtSnoc(Reported(RunningRecs(was), finished), was, p, before);
      at := if p.status == Running && p.id in finished then before + [n] else before;
    }
  }

  lemma FinishedGrows(ps: seq<Rec>, finished: seq<Rec>, ids: set<nat>) returns (at: seq<nat>)
    ensures var ps', finished' := CompleteSet(ps, ids), finished + Reported(RunningRecs(ps), ids);
            && Reporting(ps, ids, at) && |finished'| == |finished| + |at| && finished <= finished'
            && forall k :: 0 <= k < |at| ==> finished'[|finished| + k] == ps'[at[k]]
  {
    at := ReportPlaces(ps, ids);
    var r, ps' := Reported(RunningRecs(ps), ids), CompleteSet(ps, ids);
    hide Reported, RunningRecs;
    forall k | 0 <= k < |at| ensures r[k] == ps'[at[k]] {
      assert at[k] in at;
    }
  }

  lemma CollectsStored(s: Settings, e: Env)
    requires s.currentProcesses.Some? && |s.currentProcesses.value| <= |s.allProcesses.GetOr([])|
    ensures Collects(s, e, WaitStored(s, e))
  {
    var ps := s.currentProcesses.value;
    CountPlaces(CompleteSet(ps, e.finished), Running);
    var at := FinishedGrows(ps, s.finishedNodes.GetOr([]), e.finished);
    hide Count, Reported, RunningRecs, Reporting;
  }

  lemma CollectsEffect(s: Settings, e: Env)
    requires InPhase(s, Waiting) && WaitTriggered(s) && WaitRun(s, e).Ok?
    ensures Collects(s, e, WaitRun(s, e).s)
  {
    WaitCounts(s, e);
    CollectsStored(s, e);
    hide WaitRun, WaitStored, Collects;
  }

  // ---------------------------------------------------------------------------------------------------------
  // The end

  lemma DestroysEffect(job: Job, s: Settings)
    ensures Destroys(job, s, DestroyRun(job, s))
  {
  }

  lemma EarlyEffect(job: Job, s: Settings, ph: Phase, e: Env, st: Stage)
    requires ph in {Fresh, Configured, Booting, Idle, Confirming}
    requires InPhase(s, ph) && StageOf(ph) == Some(st) && Triggered(st, s) && Run(job, st, s, e).Ok?
    ensures Effect(job, st, s, e, Run(job, st, s, e).s)
  {
    if ph == Booting {
      BootsEffect(s, e);
    } else if ph == Idle {
      HandsEffect(job, s, e);
    } else if ph == Confirming {
      ConfirmsEffect(job, s, e);
    }
    hide InPhase, Boots, Hands, Confirms, BootstrapRun, ScheduleRun;
  }

  lemma LateEffect(job: Job, s: Settings, ph: Phase, e: Env, st: Stage)
    requires ph in {Launching, Waiting, Collected, Transformed, Converged}
    requires InPhase(s, ph) && StageOf(ph) == Some(st) && Triggered(st, s) && Run(job, st, s, e).Ok?
    ensures Effect(job, st, s, e, Run(job, st, s, e).s)
  {
    if ph == Launching {
      LaunchesEffect(job, s, e);
    } else if ph == Waiting {
      CollectsEffect(s, e);
    } else if ph == Transformed {
      assert s.systemId.Some?;
    } else if ph == Converged {
      DestroysEffect(job, s);
    }
    hide InPhase, Launches, Collects, Destroys, ExecuteRun, WaitRun, DestroyRun;
  }

  /** Every step of every run has the effect of the one stage that is triggered. */
  lemma StepEffect(job: Job, cs: seq<Ctx>, ins: seq<Input>, i: nat, st: Stage)
    requires IsRun(job, cs, ins) && i < |ins| && !cs[i + 1].deleted && Triggered(st, cs[i].s)
    ensures Effect(job, st, cs[i].s, ins[i].e, cs[i + 1].s)
  {
    var s, e := cs[i].s, ins[i].e;
    assert cs[i + 1] == Drive(job, cs[i], e, ins[i].order);
    RunInvariant(job, cs, ins, i);
    var ph :| InPhase(s, ph);
    PhaseTriggers(s, ph, st);
    DriveIsNext(job, s, ph, e, ins[i].order);
    hide InPhase, Run, Effect, Triggered;
    if ph in {Fresh, Configured, Booting, Idle, Confirming} {
      EarlyEffect(job, s, ph, e, st);
    } else {
      LateEffect(job, s, ph, e, st);
    }
  }

  lemma EarlyFails(job: Job, s: Settings, ph: Phase, e: Env, st: Stage)
    requires ph in {Fresh, Configured, Booting, Idle, Confirming}
    requires InPhase(s, ph) && StageOf(ph) == Some(st) && Triggered(st, s)
    ensures Run(job, st, s, e).Raised? <==> e.raises || Fails(job, st, s, e)
  {
    if ph == Idle {
      StartStep(job, s, e);
      assert !IsSet(s.scheduleStarted);
    } else if ph == Confirming {
      CompleteStep(job, s, e);
      assert IsSet(s.scheduleStarted);
    }
    hide InPhase, ScheduleRun, TotalProcs, Sweep.Product, ScheduleTriggered;
  }

  lemma LateFails(job: Job, s: Settings, ph: Phase, e: Env, st: Stage)
    requires ph in {Launching, Waiting, Collected, Transformed, Converged}
    requires InPhase(s, ph) && StageOf(ph) == Some(st) && Triggered(st, s)
    ensures Run(job, st, s, e).Raised? <==> e.raises || Fails(job, st, s, e)
  {
    if ph == Launching {
      LaunchFails(job, s, e);
    } else if ph == Waiting {
      WaitStep(s, e);
    } else if ph == Transformed {
      ConvergeStep(s, e);
    }
    hide InPhase, ExecuteRun, WaitRun, ConvergeRun, TotalProcs, Sweep.Product, ExecuteTriggered;
  }

  lemma RunFails(job: Job, s: Settings, ph: Phase, e: Env, st: Stage)
    requires InPhase(s, ph) && StageOf(ph) == Some(st) && Triggered(st, s)
    ensures Run(job, st, s, e).Raised? <==> e.raises || Fails(job, st, s, e)
  {
    hide InPhase, Run, Fails, Triggered;
    if ph in {Fresh, Configured, Booting, Idle, Confirming} {
      EarlyFails(job, s, ph, e, st);
    } else {
      LateFails(job, s, ph, e, st);
    }
  }

  /** A step of a run whose triggered stage is `st` deletes the context if and only if its body raises for a reason of
    its own, or there is nothing to schedule, or a variation has no process, or a running process is unreachable. */
  lemma StepFails(job: Job, cs: seq<Ctx>, ins: seq<Input>, i: nat, st: Stage)
    requires IsRun(job, cs, ins) && i < |ins| && !cs[i].deleted && Triggered(st, cs[i].s)
    ensures cs[i + 1].deleted <==> ins[i].e.raises || Fails(job, st, cs[i].s, ins[i].e)
  {
    var s, e := cs[i].s, ins[i].e;
    RunInvariant(job, cs, ins, i);
    var ph :| InPhase(s, ph);
    PhaseTriggers(s, ph, st);
    DriveIsNext(job, s, ph, e, ins[i].order);
    RunFails(job, s, ph, e, st);
    hide InPhase, Run, Fails, Triggered;
  }

  // ---------------------------------------------------------------------------------------------------------
  // Rescheduling, which no run comes to

  /** One new record for each listed process, waiting for its node, behind the current table and in the history. */
  ghost predicate Rehands(job: Job, s: Settings, s': Settings) {
    var failed, nodes := s.procs2bRescheduled.GetOr([]), s.bootstrappedNodes.GetOr([]);
    var ps, all, ps' := s.currentProcesses.GetOr([]), s.allProcesses.GetOr([]), s'.currentProcesses.GetOr([]);
    && nodes != [] && |ps'| == |ps| + |failed| && ps <= ps'
    && (forall i :: 0 <= i < |failed| ==>
          Dealt(ps'[|ps| + i], i, |failed|, nodes, failed[i].id, RescheduleReady, job.maximumRetry))
    && s' == s.(currentProcesses := Some(ps'), allProcesses := Some(all + ps'[|ps|..]), scheduleStarted := Some(1),
                scheduledNodes := Some(s.scheduledNodes.GetOr([])),
                rescheduledNodes := Some(s.rescheduledNodes.GetOr([])))
  }

  /** The waiting records on nodes that were confirmed are ready. */
  ghost predicate Readied(ps: seq<Rec>, ps': seq<Rec>, known: seq<Node>, nodes: seq<Node>) {
    && |ps'| == |ps|
    && forall k :: 0 <= k < |ps| ==>
         ps'[k] == if ps[k].status == RescheduleReady && Rounds.Newly(known, nodes, ps[k].ip)
                   then ps[k].(status := Ready) else ps[k]
  }

  /** Every waiting record is ready if some node was confirmed. */
  ghost predicate AllReadied(all: seq<Rec>, all': seq<Rec>, some: bool) {
    && |all'| == |all|
    && forall k :: 0 <= k < |all| ==>
         all'[k] == if all[k].status == RescheduleReady && some then all[k].(status := Ready) else all[k]
  }

  /** The nodes that answer are confirmed and their waiting records are ready; when no record of the list waits any more
    the list, the total and the nodes are cleared. */
  ghost predicate Reconfirms(s: Settings, e: Env, s': Settings, nodes: seq<Node>) {
    var failed, known := s.procs2bRescheduled.GetOr([]), s.rescheduledNodes.GetOr([]);
    var ps, ps' := s.currentProcesses.GetOr([]), s'.currentProcesses.GetOr([]);
    var all, all' := s.allProcesses.GetOr([]), s'.allProcesses.GetOr([]);
    var total := s.totalRescheduledProcs.GetOr(0)
              + |set k | 0 <= k < |ps| && ps[k].status == RescheduleReady|
              - |set k | 0 <= k < |ps'| && ps'[k].status == RescheduleReady|;
    && (exists at :: Adds(s.bootstrappedNodes.GetOr([]), e.scheduled, known, nodes, at)) && known <= nodes
    && Readied(ps, ps', known, nodes) && AllReadied(all, all', known != nodes)
    && var over := total == |failed|;
       s' == s.(currentProcesses := Some(ps'), allProcesses := Some(all'),
                scheduledNodes := Some(s.scheduledNodes.GetOr([])),
                rescheduledNodes := Some(if over then [] else nodes),
                totalRescheduledProcs := Some(if over then 0 else total),
                procs2bRescheduled := if over then Some([]) else s.procs2bRescheduled,
                scheduleCompleted := if over then Some(1) else s.scheduleCompleted)
  }

  lemma AllRedealt(job: Job, nodes: seq<Node>, failed: seq<Rec>)
    requires nodes != [] && failed != []
    ensures var ps := RoundRobinReassign(nodes, failed, job.maximumRetry);
            && |ps| == |failed| && AllStatus(ps, RescheduleReady)
            && forall i :: 0 <= i < |failed| ==>
                 Dealt(ps[i], i, |failed|, nodes, failed[i].id, RescheduleReady, job.maximumRetry)
  {
    Rounds.HandedOut(nodes, failed, job.maximumRetry);
    hide RoundRobinReassign, RoundRobin;
    forall i | 0 <= i < |failed|
      ensures Dealt(RoundRobinReassign(nodes, failed, job.maximumRetry)[i], i, |failed|, nodes, failed[i].id,
                    RescheduleReady, job.maximumRetry)
    {
      Rounds.HandedOutAt(nodes, failed, job.maximumRetry, i);
    }
  }

  /** The first schedule step of a round. */
  lemma RehandsEffect(job: Job, s: Settings, e: Env)
    requires ScheduleTriggered(s) && !IsSet(s.scheduleStarted) && s.procs2bRescheduled.GetOr([]) != []
    requires Count(s.currentProcesses.GetOr([]), RescheduleReady) == 0
    ensures ScheduleRun(job, s, e).Ok? && Rehands(job, s, ScheduleRun(job, s, e).s)
  {
    var ps := s.currentProcesses.GetOr([]);
    var more := RoundRobinReassign(s.bootstrappedNodes.value, s.procs2bRescheduled.value, job.maximumRetry);
    AllRedealt(job, s.bootstrappedNodes.value, s.procs2bRescheduled.value);
    CountZero(ps, RescheduleReady);
    Rounds.FilterNone(ps, more, RescheduleReady);
    Rounds.FilterAll(more, RescheduleReady);
    hide RoundRobinReassign, Filter, Count, Dealt;
    assert (ps + more)[|ps|..] == more;
  }

  lemma PollReadies(nodes: seq<Node>, answers: set<string>, r: Round) returns (at: seq<nat>)
    ensures var r' := PollRound(nodes, answers, r);
            && Adds(nodes, answers, r.confirmed, r'.confirmed, at) && r.confirmed <= r'.confirmed
            && Readied(r.current, r'.current, r.confirmed, r'.confirmed)
            && AllReadied(r.all, r'.all, r.confirmed != r'.confirmed)
            && r'.total == r.total + |set k | 0 <= k < |r.current| && r.current[k].status == RescheduleReady|
                         - |set k | 0 <= k < |r'.current| && r'.current[k].status == RescheduleReady|
  {
    var r' := PollRound(nodes, answers, r);
    Rounds.PollRoundExact(nodes, answers, r);
    at := ConfirmPlaces(nodes, answers, r.confirmed);
    CountPlaces(r.current, RescheduleReady);
    CountPlaces(r'.current, RescheduleReady);
    hide PollRound, Confirm, Count, Adds, Rounds.Newly;
  }

  /** Every other schedule step of a round. */
  lemma ReconfirmsEffect(job: Job, s: Settings, e: Env) returns (nodes: seq<Node>)
    requires ScheduleTriggered(s) && IsSet(s.scheduleStarted) && s.procs2bRescheduled.GetOr([]) != []
    ensures ScheduleRun(job, s, e).Ok? && Reconfirms(s, e, ScheduleRun(job, s, e).s, nodes)
  {
    var r := Round(s.rescheduledNodes.GetOr([]), s.currentProcesses.GetOr([]), s.allProcesses.GetOr([]),
                   s.totalRescheduledProcs.GetOr(0));
    var at := PollReadies(s.bootstrappedNodes.value, e.scheduled, r);
    nodes := PollRound(s.bootstrappedNodes.value, e.scheduled, r).confirmed;
    hide PollRound, Adds, Readied, AllReadied;
    assert Adds(s.bootstrappedNodes.GetOr([]), e.scheduled, s.rescheduledNodes.GetOr([]), nodes, at);
  }

  // ---------------------------------------------------------------------------------------------------------
  // When a stage is due

  ghost predicate SomeRunning(nodes: seq<Node>) {
    exists i :: 0 <= i < |nodes| && nodes[i].state == NodeRunning
  }

  ghost predicate SomeReady(ps: seq<Rec>) {
    exists i :: 0 <= i < |ps| && ps[i].status == Ready
  }

  /** The condition of each stage, of any settings whatever: on which nodes are running, which processes are ready, and
    what has been counted. */
  ghost predicate Due(st: Stage, s: Settings) {
    var created, booted := s.createdNodes.GetOr([]), s.bootstrappedNodes.GetOr([]);
    var ps, failed := s.currentProcesses.GetOr([]), s.procs2bRescheduled.GetOr([]);
    match st
    case Configure => !IsSet(s.configureDone)
    case Create => s.configureDone != None && !IsSet(s.createDone) && s.createdNodes == None
    case Bootstrap =>
      && SomeRunning(created)
      && (s.bootstrappedNodes == None || |booted| < |set i | 0 <= i < |created| && created[i].state == NodeRunning|)
    case Schedule =>
      && SomeRunning(created) && IsSet(s.bootstrapDone) && booted != []
      && (if failed == [] then
            s.totalProcesses.GetOr(0) == 0 || s.totalProcesses.value != s.totalScheduledProcs.GetOr(0)
          else s.totalRescheduledProcs.GetOr(0) != |failed|)
    case Execute =>
      && IsSet(s.scheduleCompleted) && s.allProcesses != None && ps != [] && (s.executedProcs == None || SomeReady(ps))
    case Wait => s.executedProcs != None && ps != [] && !SomeReady(ps) && failed == [] && IsSet(s.runsLeft)
    case Transform =>
      && failed == [] && !SomeReady(ps) && s.runsLeft == Some(0) && !IsSet(s.transformed) && !IsSet(s.converged)
      && (s.failedNodes == None || s.createdNodes == None
          || (|s.failedNodes.value| != |created| && created != []))
    case Converge => IsSet(s.transformed)
    case Destroy => IsSet(s.converged) && !IsSet(s.runFinished)
  }

  lemma RunningSnoc(nodes: seq<Node>, n: Node)
    ensures RunningNodes(nodes + [n]) == RunningNodes(nodes) + if n.state == NodeRunning then [n] else []
    ensures (set i | 0 <= i < |nodes + [n]| && (nodes + [n])[i].state == NodeRunning)
         == (set i | 0 <= i < |nodes| && nodes[i].state == NodeRunning)
          + if n.state == NodeRunning then {|nodes|} else {}
  {
    RunningNodesConcat(nodes, [n]);
    assert [n][1..] == [];
  }

  lemma {:induction false} RunningPlaces(nodes: seq<Node>)
    ensures |RunningNodes(nodes)| == |set i | 0 <= i < |nodes| && nodes[i].state == NodeRunning|
  {
    var at := set i | 0 <= i < |nodes| && nodes[i].state == NodeRunning;
    if nodes == [] {
      assert at == {};
    } else {
      var n := |nodes| - 1;
      assert nodes == nodes[..n] + [nodes[n]];
      RunningPlaces(nodes[..n]);
      RunningSnoc(nodes[..n], nodes[n]);
      hide RunningNodes;
    }
  }

  lemma AnyRunning(nodes: seq<Node>)
    ensures RunningNodes(nodes) != [] <==> SomeRunning(nodes)
  {
    RunningNodesAre(nodes);
    if RunningNodes(nodes) != [] {
      assert RunningNodes(nodes)[0] in nodes;
    }
    if SomeRunning(nodes) {
      var i :| 0 <= i < |nodes| && nodes[i].state == NodeRunning;
      assert nodes[i] in RunningNodes(nodes);
    }
  }

  /** Each trigger is its condition. */
  lemma TriggersAre(st: Stage, s: Settings)
    ensures Triggered(st, s) <==> Due(st, s)
  {
    AnyRunning(s.createdNodes.GetOr([]));
    RunningPlaces(s.createdNodes.GetOr([]));
    CountZero(s.currentProcesses.GetOr([]), Ready);
    hide RunningNodes, Count, SomeRunning;
  }
}

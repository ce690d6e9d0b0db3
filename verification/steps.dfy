/** Every phase of a job leads to the next ones: one lemma a stage. */
module JobSteps {
  import opened Records
  import opened Scheduler
  import opened JobState
  import opened TableLemmas
  import opened JobInvariant
  import Sweep

  lemma ConfigureStep(s: Settings)
    requires InPhase(s, Fresh)
    ensures InPhase(ConfigureRun(s), Configured)
  {
  }

  lemma CreateStep(s: Settings, e: Env)
    requires InPhase(s, Configured)
    ensures InPhase(CreateRun(s, e), if e.machines == [] then Stranded else Booting)
  {
  }

  // Bootstrap

  function IpSet(nodes: seq<Node>): set<string> {
    set i | 0 <= i < |nodes| :: nodes[i].ip
  }

  lemma {:induction false} IpSetSize(nodes: seq<Node>)
    ensures |IpSet(nodes)| <= |nodes|
    ensures DistinctIps(nodes) ==> |IpSet(nodes)| == |nodes|
  {
    if nodes != [] {
      var last := |nodes| - 1;
      IpSetSize(nodes[..last]);
      assert IpSet(nodes) == IpSet(nodes[..last]) + {nodes[last].ip};
    }
  }

  lemma SubsetSize(a: set<string>, b: set<string>)
    requires a <= b
    ensures |a| <= |b|
  {
    assert b == a + (b - a);
  }

  /** Nodes with distinct addresses taken from `all` are no more than `all`. */
  lemma NoMoreNodes(nodes: seq<Node>, all: seq<Node>)
    requires DistinctIps(nodes) && IpsWithin(nodes, all)
    ensures |nodes| <= |all|
  {
    IpSetSize(nodes);
    IpSetSize(all);
    forall x | x in IpSet(nodes) ensures x in IpSet(all) {
      var i :| 0 <= i < |nodes| && nodes[i].ip == x;
      var j :| 0 <= j < |all| && Ips(all)[j] == x;
      assert all[j].ip == x;
    }
    SubsetSize(IpSet(nodes), IpSet(all));
  }

  lemma BootNodes(created: seq<Node>, known: seq<Node>, answers: set<string>)
    requires DistinctIps(known) && IpsWithin(known, created)
    ensures var nodes := Confirm(created, answers, known);
            DistinctIps(nodes) && IpsWithin(nodes, created) && |nodes| <= |created| && known <= nodes
  {
    ConfirmKeeps(created, answers, known);
    NoMoreNodes(Confirm(created, answers, known), created);
  }

  lemma BootedNow(s: Settings, nodes: seq<Node>)
    requires InPhase(s, Booting) && DistinctIps(nodes) && |nodes| == |s.createdNodes.value|
    ensures InPhase(s.(bootStarted := Some(1), bootstrappedNodes := Some(nodes), systemId := Some(0),
                       bootstrapDone := Some(1)), Idle)
  {
  }

  lemma BootingStill(s: Settings, nodes: seq<Node>)
    requires InPhase(s, Booting) && DistinctIps(nodes) && IpsWithin(nodes, s.createdNodes.value)
    requires |nodes| < |s.createdNodes.value|
    ensures InPhase(s.(bootStarted := Some(1), bootstrappedNodes := Some(nodes), systemId := Some(0)), Booting)
  {
  }

  lemma BootstrapStep(s: Settings, e: Env)
    requires InPhase(s, Booting) && BootstrapTriggered(s)
    ensures var s' := BootstrapRun(s, e); InPhase(s', Booting) || InPhase(s', Idle)
  {
    var created, known := s.createdNodes.value, s.bootstrappedNodes.GetOr([]);
    assert RunningNodes(created) == created by { RunningNodesAll(s); }
    BootNodes(created, known, e.booted);
    var nodes := BootstrapRun(s, e).bootstrappedNodes.value;
    if |nodes| == |created| {
      BootedNow(s, nodes);
    } else {
      BootingStill(s, nodes);
    }
  }

  // Schedule

  /** There is no combination if and only if some range is empty. */
  lemma {:induction false} NoCombination(ranges: seq<seq<string>>)
    ensures Sweep.Product(ranges) == [] <==> exists k :: 0 <= k < |ranges| && ranges[k] == []
  {
    Sweep.ProductSize(ranges);
    if ranges != [] {
      var rest := ranges[1..];
      NoCombination(rest);
      Sweep.ProductSize(rest);
      hide Sweep.Product;
      assert Sweep.Size(ranges) == |ranges[0]| * Sweep.Size(rest);
      assert Sweep.Size(ranges) == 0 <==> |ranges[0]| == 0 || Sweep.Size(rest) == 0;
      assert forall k :: 1 <= k < |ranges| ==> ranges[k] == rest[k - 1];
      assert forall k :: 0 <= k < |rest| ==> rest[k] == ranges[k + 1];
    }
  }

  /** The number to schedule. */
  lemma Counted(job: Job, e: Env)
    ensures TotalProcs(job, e) == |Sweep.Product(Sweep.Ranges(e.sweep))| * if job.inputs then e.inputDirs else 1
    ensures TotalProcs(job, e) == 0
       <==> (exists k :: 0 <= k < |e.sweep| && e.sweep[k].1 == []) || (job.inputs && e.inputDirs == 0)
  {
    var ranges := Sweep.Ranges(e.sweep);
    Sweep.ProductSize(ranges);
    NoCombination(ranges);
    hide Sweep.Product, Sweep.Size;
    assert forall k :: 0 <= k < |ranges| ==> ranges[k] == e.sweep[k].1;
  }

  lemma StartStep(job: Job, s: Settings, e: Env)
    requires InPhase(s, Idle) && ScheduleTriggered(s)
    ensures ScheduleRun(job, s, e).Raised?
       <==> (exists k :: 0 <= k < |e.sweep| && e.sweep[k].1 == []) || (job.inputs && e.inputDirs == 0)
    ensures ScheduleRun(job, s, e).Ok? ==> InPhase(ScheduleRun(job, s, e).s, Confirming)
  {
    Counted(job, e);
    if TotalProcs(job, e) > 0 {
      var all := s.allProcesses.GetOr([]);
      RoundRobinIds(s.bootstrappedNodes.value, TotalProcs(job, e), ScheduleIndex(s), job.maximumRetry);
      var s' := ScheduleRun(job, s, e).s;
      var current := s'.currentProcesses.value;
      assert History(s') == all && History(s) == all;
    }
  }

  /** The total a completion poll stores is the number of processes it has covered. */
  lemma PollTotal(nodes: seq<Node>, answers: set<string>, known: seq<Node>, ps: seq<Rec>, total: int)
    requires DistinctIps(known) && IpsWithin(known, nodes) && total == Covered(ps, known)
    ensures var c := Confirm(nodes, answers, known);
            && DistinctIps(c) && IpsWithin(c, nodes)
            && AddConfirmed(nodes, answers, known, ps, total) == Covered(ps, c) <= |ps|
  {
    ConfirmKeeps(nodes, answers, known);
    AddConfirmedCounts(nodes, answers, known, ps, total);
    CoveredCounts(ps, Confirm(nodes, answers, known));
    hide Confirm, AddConfirmed, Covered, CountCovered, DistinctIps;
  }

  lemma CompleteTotal(s: Settings, e: Env)
    requires InPhase(s, Confirming) && ScheduleTriggered(s)
    ensures var s', current := CompleteScheduleRun(s, e), s.currentProcesses.value;
            && s'.scheduledNodes.Some? && DistinctIps(s'.scheduledNodes.value)
            && IpsWithin(s'.scheduledNodes.value, s.bootstrappedNodes.value)
            && s'.totalScheduledProcs == Some(Covered(current, s'.scheduledNodes.value))
            && Covered(current, s'.scheduledNodes.value) <= |current|
  {
    PollTotal(s.bootstrappedNodes.value, e.scheduled, s.scheduledNodes.GetOr([]), s.currentProcesses.value,
              s.totalScheduledProcs.GetOr(0));
    hide Confirm, AddConfirmed, Covered, DistinctIps;
  }

  function Polled(s: Settings, nodes: seq<Node>, total: int): Settings {
    Loaded(s).(scheduledNodes := Some(nodes), totalScheduledProcs := Some(total))
  }

  lemma LoadedTables(s: Settings, nodes: seq<Node>, total: int)
    requires Scheduled(s)
    ensures Scheduled(Polled(s, nodes, total))
  {
    TableStays(s, Polled(s, nodes, total));
  }

  lemma NowLaunching(s: Settings, nodes: seq<Node>)
    requires InPhase(s, Confirming)
    ensures InPhase(Polled(s, nodes, |s.currentProcesses.value|).(scheduleCompleted := Some(1)), Launching)
  {
    var s' := Polled(s, nodes, |s.currentProcesses.value|);
    LoadedTables(s, nodes, |s.currentProcesses.value|);
    TableStays(s', s'.(scheduleCompleted := Some(1)));
    CountFull(s.currentProcesses.value, Ready);
    hide TableAgreement, Count, Covered, DistinctIps, IpsWithin;
  }

  lemma StillConfirming(s: Settings, nodes: seq<Node>, total: int)
    requires InPhase(s, Confirming) && DistinctIps(nodes) && IpsWithin(nodes, s.bootstrappedNodes.value)
    requires total == Covered(s.currentProcesses.value, nodes) < |s.currentProcesses.value|
    ensures InPhase(Polled(s, nodes, total), Confirming)
  {
    LoadedTables(s, nodes, total);
    hide TableAgreement, Covered, DistinctIps, IpsWithin;
  }

  lemma CompleteStep(job: Job, s: Settings, e: Env)
    requires InPhase(s, Confirming) && ScheduleTriggered(s)
    ensures ScheduleRun(job, s, e) == Ok(CompleteScheduleRun(s, e))
    ensures var s' := CompleteScheduleRun(s, e); InPhase(s', Confirming) || InPhase(s', Launching)
  {
    CompleteTotal(s, e);
    var nodes := CompleteScheduleRun(s, e).scheduledNodes.value;
    var total := CompleteScheduleRun(s, e).totalScheduledProcs.value;
    if total == |s.currentProcesses.value| {
      NowLaunching(s, nodes);
    } else {
      StillConfirming(s, nodes, total);
    }
    hide Confirm, AddConfirmed, Covered, DistinctIps, Count, TableAgreement, FullyScheduled, ReadyOrRunning;
  }

  /** A stage that rewrites the current table in place, id by id, and the history's tail with it, keeps the
    tables in agreement. */
  lemma TableStays(s: Settings, s': Settings)
    requires TableAgreement(s) && s'.scheduleIndex == s.scheduleIndex
    requires s'.allProcesses.GetOr([]) == History(s) + s'.currentProcesses.GetOr([])
    requires var ps, ps' := s.currentProcesses.GetOr([]), s'.currentProcesses.GetOr([]);
             |ps'| == |ps| && forall i :: 0 <= i < |ps| ==> ps'[i].id == ps[i].id
    ensures TableAgreement(s') && History(s') == History(s)
  {
    var all, all' := s.allProcesses.GetOr([]), s'.allProcesses.GetOr([]);
    assert History(s') == History(s);
    forall i | 0 <= i < |all'| ensures all'[i].id == i + 1 {
      assert all[i].id == i + 1;
    }
  }

  // Execute

  lemma TableIds(s: Settings)
    requires TableAgreement(s)
    ensures var current := s.currentProcesses.GetOr([]);
            && DistinctIds(current) && NoReadyClash(History(s), current)
            && forall i :: 0 <= i < |current| ==> current[i].id == |History(s)| + 1 + i
  {
    var all, current, h := s.allProcesses.GetOr([]), s.currentProcesses.GetOr([]), History(s);
    forall i | 0 <= i < |current| ensures current[i].id == |h| + 1 + i {
      assert all[|h| + i] == current[i];
    }
  }

  lemma LaunchCounts(ps: seq<Rec>, launched: set<nat>)
    requires ReadyOrRunning(ps)
    ensures var r := LaunchCurrent(ps, launched);
            && ReadyOrRunning(r)
            && Count(r, Ready) + Count(r, Running) == |r| && Count(r, Completed) == 0 && Count(r, Failed) == 0
            && (forall i :: 0 <= i < |r| ==> r[i].id == ps[i].id)
  {
    var r := LaunchCurrent(ps, launched);
    forall p | p in r ensures p.status == Ready || p.status == Running {
      var i :| 0 <= i < |r| && r[i] == p;
      assert ps[i] in ps;
    }
    CountSplit(r);
    CountZero(r, Completed);
    CountZero(r, Failed);
    CountZero(r, RescheduleReady);
  }

  /** What an execute pass stores when it does not raise. */
  ghost function ExecuteStored(job: Job, s: Settings, e: Env): Settings
    requires ExecuteTriggered(s) && |s.currentProcesses.value| <= |s.allProcesses.GetOr([])|
  {
    var ps' := LaunchCurrent(s.currentProcesses.value, e.launched);
    s.(executedProcs := Some([]), currentProcesses := Some(ps'), allProcesses := Some(History(s) + ps'),
       runsLeft := Some(Count(ps', Running)),
       initialNumbfile := Some(s.initialNumbfile.GetOr(1) + if UploadsInputs(job, s) then TotalProcs(job, e) else 0))
  }

  lemma ExecuteStores(job: Job, s: Settings, e: Env)
    requires InPhase(s, Launching) && ExecuteTriggered(s) && ExecuteRun(job, s, e).Ok?
    ensures ExecuteRun(job, s, e) == Ok(ExecuteStored(job, s, e))
  {
    TableIds(s);
    LaunchAllSuffix(History(s), s.currentProcesses.value, e.launched);
  }

  lemma ExecuteStoredTables(job: Job, s: Settings, e: Env)
    requires InPhase(s, Launching) && ExecuteTriggered(s)
    ensures FullyScheduled(ExecuteStored(job, s, e))
  {
    TableStays(s, ExecuteStored(job, s, e));
    hide TableAgreement, History, ReadyOrRunning, Count, DistinctIps, AllRunning, UploadsInputs, TotalProcs;
  }

  lemma ExecuteStoredPhase(job: Job, s: Settings, e: Env)
    requires InPhase(s, Launching) && ExecuteTriggered(s)
    ensures var s' := ExecuteStored(job, s, e); InPhase(s', Launching) || InPhase(s', Waiting)
  {
    ExecuteStoredTables(job, s, e);
    LaunchCounts(s.currentProcesses.value, e.launched);
    LaunchedPhase(ExecuteStored(job, s, e));
    hide FullyScheduled, Count, UploadsInputs, TotalProcs, LaunchCurrent, ReadyOrRunning;
  }

  /** A fully scheduled table of ready and running records is launching or waiting. */
  lemma LaunchedPhase(s: Settings)
    requires FullyScheduled(s) && s.executedProcs.Some? && ReadyOrRunning(s.currentProcesses.value)
    requires s.runsLeft == Some(Count(s.currentProcesses.value, Running)) && s.finishedNodes.GetOr([]) == []
    ensures InPhase(s, Launching) || InPhase(s, Waiting)
  {
    var ps := s.currentProcesses.value;
    CountZero(ps, Ready);
    CountZero(ps, Completed);
    CountZero(ps, Failed);
    CountZero(ps, RescheduleReady);
    CountSplit(ps);
    hide Iterating, Count;
  }

  lemma ExecuteStep(job: Job, s: Settings, e: Env)
    requires InPhase(s, Launching) && ExecuteTriggered(s)
    ensures ExecuteRun(job, s, e).Ok? ==>
              var s' := ExecuteRun(job, s, e).s; InPhase(s', Launching) || InPhase(s', Waiting)
  {
    if ExecuteRun(job, s, e).Ok? {
      ExecuteStores(job, s, e);
      ExecuteStoredPhase(job, s, e);
    }
  }

  // Wait

  lemma CompletesHistory(h: seq<Rec>, ps: seq<Rec>, ids: set<nat>)
    requires AllStatus(h, Completed)
    ensures CompleteSet(h + ps, ids) == h + CompleteSet(ps, ids)
  {
  }

  lemma FinishedNew(finished: seq<Rec>, ps: seq<Rec>)
    requires FinishedAre(finished, ps) && DistinctIds(ps)
    ensures forall i :: 0 <= i < |RunningRecs(ps)| ==> RunningRecs(ps)[i].id !in Ids(finished)
  {
    RunningRecsAre(ps);
    forall i | 0 <= i < |RunningRecs(ps)| ensures RunningRecs(ps)[i].id !in Ids(finished) {
      var p := RunningRecs(ps)[i];
      assert p in RunningRecs(ps);
      forall k | 0 <= k < |finished| ensures finished[k].id != p.id {
        assert finished[k] in finished;
      }
    }
  }

  /** The finished list stays exact through a pass. */
  lemma FinishedStays(finished: seq<Rec>, ps: seq<Rec>, ids: set<nat>)
    requires FinishedAre(finished, ps)
    ensures FinishedAre(finished + Reported(RunningRecs(ps), ids), CompleteSet(ps, ids))
  {
    var running, ps' := RunningRecs(ps), CompleteSet(ps, ids);
    RunningRecsAre(ps);
    ReportedAre(running, ids);
    ReportedCount(ps, ids);
    var finished' := finished + Reported(running, ids);
    forall f | f in finished' ensures f in ps' && f.status == Completed {
      if f in finished {
        var i :| 0 <= i < |ps| && ps[i] == f;
        assert ps'[i] == f;
      } else {
        var p :| p in running && p.id in ids && f == p.(status := Completed);
        var i :| 0 <= i < |ps| && ps[i] == p;
        assert ps'[i] == f;
      }
    }
    forall p | p in ps' && p.status == Completed ensures p in finished' {
      var i :| 0 <= i < |ps'| && ps'[i] == p;
      if ps[i].status == Completed {
        assert ps[i] in ps && ps[i] == p;
      } else {
        assert ps[i] in running && p == ps[i].(status := Completed);
        assert p in Reported(running, ids);
      }
    }
  }

  lemma PassCounts(ps: seq<Rec>)
    requires RunningOrCompleted(ps)
    ensures Count(ps, Ready) == 0 && Count(ps, Failed) == 0 && Count(ps, Running) + Count(ps, Completed) == |ps|
  {
    CountSplit(ps);
    CountZero(ps, Ready);
    CountZero(ps, Failed);
    CountZero(ps, RescheduleReady);
  }

  lemma CompleteSetStatuses(ps: seq<Rec>, ids: set<nat>)
    requires RunningOrCompleted(ps)
    ensures RunningOrCompleted(CompleteSet(ps, ids))
  {
    var ps' := CompleteSet(ps, ids);
    forall p | p in ps' ensures p.status == Running || p.status == Completed {
      var i :| 0 <= i < |ps'| && ps'[i] == p;
      assert ps[i] in ps;
    }
  }

  /** What a pass without failures does to the tables. */
  lemma PassTables(h: seq<Rec>, ps: seq<Rec>, finished: seq<Rec>, answers: set<nat>)
    requires AllStatus(h, Completed) && DistinctIds(ps) && FinishedAre(finished, ps)
    ensures PollAll(Tables(ps, h + ps, [], finished), RunningRecs(ps), answers) == PassResult(h, ps, finished, answers)
  {
    var running := RunningRecs(ps);
    RunningRecsAre(ps);
    FinishedNew(finished, ps);
    PollAllTogether(Tables(ps, h + ps, [], finished), running, answers);
    CompleteReported(ps, answers);
    CompletesHistory(h, ps, ReportedIds(running, answers));
  }

  function PassResult(h: seq<Rec>, ps: seq<Rec>, finished: seq<Rec>, answers: set<nat>): Tables {
    Tables(CompleteSet(ps, answers), h + CompleteSet(ps, answers), [], finished + Reported(RunningRecs(ps), answers))
  }

  lemma WaitPoll(s: Settings, e: Env)
    requires InPhase(s, Waiting) && WaitTriggered(s)
    ensures WaitTables(s, e) == PassResult(History(s), s.currentProcesses.value, s.finishedNodes.GetOr([]), e.finished)
  {
    TableIds(s);
    PassTables(History(s), s.currentProcesses.value, s.finishedNodes.GetOr([]), e.finished);
  }

  /** The number of processes still working, computed from lengths, is the number of running records. */
  lemma WorkingCounts(h: seq<Rec>, ps: seq<Rec>, finished: seq<Rec>, answers: set<nat>)
    requires RunningOrCompleted(ps) && FinishedAre(finished, ps)
    ensures Working(PassResult(h, ps, finished, answers), Count(ps, Failed)) == Count(CompleteSet(ps, answers), Running)
  {
    ReportedCount(ps, answers);
    PassCounts(ps);
    CompleteSetStatuses(ps, answers);
    PassCounts(CompleteSet(ps, answers));
  }

  /** What a pass without failures stores; in particular the runs left are the running records. */
  function WaitStored(s: Settings, e: Env): Settings
    requires s.currentProcesses.Some? && |s.currentProcesses.value| <= |s.allProcesses.GetOr([])|
  {
    var ps := s.currentProcesses.value;
    var ps' := CompleteSet(ps, e.finished);
    s.(currentProcesses := Some(ps'), allProcesses := Some(History(s) + ps'), executedProcs := Some([]),
       runsLeft := Some(Count(ps', Running)), errorNodes := Some(Count(ps', Running)),
       finishedNodes := Some(if Count(ps', Running) == 0 then [] else
         s.finishedNodes.GetOr([]) + Reported(RunningRecs(ps), e.finished)))
  }

  lemma WaitCounts(s: Settings, e: Env)
    requires InPhase(s, Waiting) && WaitTriggered(s) && !PollFails(s.currentProcesses.value, e)
    ensures WaitRun(s, e) == Ok(WaitStored(s, e))
  {
    WaitPoll(s, e);
    WorkingCounts(History(s), s.currentProcesses.value, s.finishedNodes.GetOr([]), e.finished);
  }

  lemma WaitStoredTables(s: Settings, e: Env)
    requires InPhase(s, Waiting)
    ensures FullyScheduled(WaitStored(s, e))
  {
    TableStays(s, WaitStored(s, e));
  }

  lemma WaitContinues(s: Settings, e: Env)
    requires InPhase(s, Waiting) && Count(CompleteSet(s.currentProcesses.value, e.finished), Running) > 0
    ensures InPhase(WaitStored(s, e), Waiting)
  {
    var ps := s.currentProcesses.value;
    WaitStoredTables(s, e);
    CompleteSetStatuses(ps, e.finished);
    FinishedStays(s.finishedNodes.GetOr([]), ps, e.finished);
  }

  lemma WaitEnds(s: Settings, e: Env)
    requires InPhase(s, Waiting) && Count(CompleteSet(s.currentProcesses.value, e.finished), Running) == 0
    ensures InPhase(WaitStored(s, e), Collected)
  {
    WaitStoredTables(s, e);
    AllCompleted(CompleteSet(s.currentProcesses.value, e.finished)) by {
      CompleteSetStatuses(s.currentProcesses.value, e.finished);
    }
  }

  lemma AllCompleted(ps: seq<Rec>)
    requires RunningOrCompleted(ps) && Count(ps, Running) == 0
    ensures AllStatus(ps, Completed)
  {
    CountZero(ps, Running);
  }

  lemma WaitStep(s: Settings, e: Env)
    requires InPhase(s, Waiting) && WaitTriggered(s)
    ensures WaitRun(s, e).Raised? <==> PollFails(s.currentProcesses.value, e)
    ensures WaitRun(s, e).Ok? ==> var s' := WaitRun(s, e).s; InPhase(s', Waiting) || InPhase(s', Collected)
  {
    if !PollFails(s.currentProcesses.value, e) {
      WaitCounts(s, e);
      if Count(CompleteSet(s.currentProcesses.value, e.finished), Running) > 0 {
        WaitContinues(s, e);
      } else {
        WaitEnds(s, e);
      }
    }
  }

  // Transform, converge, destroy

  lemma TransformStep(s: Settings)
    requires InPhase(s, Collected)
    ensures InPhase(TransformRun(s), Transformed)
  {
    assert History(TransformRun(s)) == History(s);
  }

  lemma ConvergeStep(s: Settings, e: Env)
    requires InPhase(s, Transformed)
    ensures ConvergeRun(s, e).Ok?
    ensures InPhase(ConvergeRun(s, e).s, if e.done then Converged else Idle)
  {
    var s' := ConvergeRun(s, e).s;
    if e.done {
      assert History(s') == History(s);
    } else {
      assert History(s') == s.allProcesses.value;
      forall i | 0 <= i < |History(s')| ensures History(s')[i].status == Completed {
        if i >= |History(s)| {
          assert History(s')[i] == s.currentProcesses.value[i - |History(s)|];
        }
      }
    }
  }

  lemma {:induction false} TerminatedNone(nodes: seq<Node>)
    requires AllRunning(nodes)
    ensures RunningNodes(Terminated(nodes)) == []
  {
    if nodes != [] {
      assert Terminated(nodes)[1..] == Terminated(nodes[1..]);
      TerminatedNone(nodes[1..]);
      assert nodes[0] in nodes;
    }
  }

  lemma DestroyStep(job: Job, s: Settings)
    requires InPhase(s, Converged)
    ensures InPhase(DestroyRun(job, s), Finished)
  {
    var s' := DestroyRun(job, s);
    assert History(s') == History(s);
    TerminatedNone(s.createdNodes.value);
  }
}

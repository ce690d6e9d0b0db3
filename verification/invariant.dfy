/** What every driver step keeps. A job is always in one of a few phases; in each phase exactly one of the nine
  triggers holds, the process tables agree, and the counters mean what their names say. */
module JobInvariant {
  import opened Records
  import opened Scheduler
  import opened JobState
  import opened TableLemmas

  datatype Phase = Fresh | Configured | Stranded | Booting | Idle | Confirming | Launching | Waiting | Collected
                 | Transformed | Converged | Finished

  ghost predicate AllRunning(nodes: seq<Node>) {
    forall n :: n in nodes ==> n.state == NodeRunning
  }

  ghost predicate HasNodes(s: Settings) {
    && s.configureDone == Some(1) && s.createDone == Some(1)
    && s.createdNodes.Some? && s.createdNodes.value != [] && AllRunning(s.createdNodes.value)
    && s.failedNodes.None? && s.scheduledStarted.None?
  }

  ghost predicate Booted(s: Settings) {
    && HasNodes(s)
    && s.bootstrapDone == Some(1) && s.systemId.Some?
    && s.bootstrappedNodes.Some? && |s.bootstrappedNodes.value| == |s.createdNodes.value|
    && DistinctIps(s.bootstrappedNodes.value)
  }

  /** The records of earlier iterations. */
  function History(s: Settings): seq<Rec>
    requires |s.currentProcesses.GetOr([])| <= |s.allProcesses.GetOr([])|
  {
    s.allProcesses.GetOr([])[..|s.allProcesses.GetOr([])| - |s.currentProcesses.GetOr([])|]
  }

  /** The history table is a run of completed records followed by the current table, record for record, and the
    ids of the whole table are 1, 2, ... up to the schedule index. */
  ghost predicate TableAgreement(s: Settings) {
    var all, current := s.allProcesses.GetOr([]), s.currentProcesses.GetOr([]);
    && |current| <= |all| && all == History(s) + current
    && AllStatus(History(s), Completed)
    && (forall i :: 0 <= i < |all| ==> all[i].id == i + 1)
    && s.scheduleIndex.GetOr(0) == |all|
  }

  ghost predicate Iterating(s: Settings) {
    && Booted(s) && TableAgreement(s)
    && s.procs2bRescheduled.GetOr([]) == [] && s.executedProcs.GetOr([]) == []
    && !IsSet(s.converged) && s.runFinished.None?
  }

  ghost predicate Scheduled(s: Settings) {
    && Iterating(s)
    && s.scheduleStarted == Some(1) && s.allProcesses.Some?
    && s.currentProcesses.Some? && s.currentProcesses.value != []
    && s.totalProcesses == Some(|s.currentProcesses.value|)
  }

  ghost predicate IpsWithin(nodes: seq<Node>, all: seq<Node>) {
    forall i :: 0 <= i < |nodes| ==> nodes[i].ip in Ips(all)
  }

  ghost predicate FullyScheduled(s: Settings) {
    && Scheduled(s)
    && s.scheduleCompleted == Some(1) && s.totalScheduledProcs == s.totalProcesses
    && s.transformed.None?
  }

  ghost predicate ReadyOrRunning(ps: seq<Rec>) {
    forall p :: p in ps ==> p.status == Ready || p.status == Running
  }

  ghost predicate RunningOrCompleted(ps: seq<Rec>) {
    forall p :: p in ps ==> p.status == Running || p.status == Completed
  }

  /** The finished list holds exactly the completed records of the current table, each once. */
  ghost predicate FinishedAre(finished: seq<Rec>, current: seq<Rec>) {
    && |finished| == Count(current, Completed)
    && (forall f :: f in finished ==> f in current && f.status == Completed)
    && (forall p :: p in current && p.status == Completed ==> p in finished)
  }

  ghost predicate InPhase(s: Settings, ph: Phase) {
    match ph
    case Fresh => s == EMPTY
    case Configured => s == EMPTY.(configureDone := Some(1))
    case Stranded => s == EMPTY.(configureDone := Some(1), createDone := Some(1), createdNodes := Some([]))
    case Booting =>
      && HasNodes(s)
      && s == EMPTY.(configureDone := Some(1), createDone := Some(1), createdNodes := s.createdNodes,
                     bootStarted := s.bootStarted, bootstrappedNodes := s.bootstrappedNodes, systemId := s.systemId)
      && (s.bootStarted.None? || s.bootStarted == Some(1))
      && DistinctIps(s.bootstrappedNodes.GetOr([])) && |s.bootstrappedNodes.GetOr([])| < |s.createdNodes.value|
      && IpsWithin(s.bootstrappedNodes.GetOr([]), s.createdNodes.value)
    case Idle =>
      && Iterating(s)
      && !IsSet(s.scheduleStarted) && !IsSet(s.scheduleCompleted)
      && s.currentProcesses.GetOr([]) == [] && s.scheduledNodes.GetOr([]) == [] && s.totalScheduledProcs.GetOr(0) == 0
      && s.runsLeft.None? && s.transformed.None? && s.finishedNodes.GetOr([]) == []
    case Confirming =>
      && Scheduled(s) && !IsSet(s.scheduleCompleted)
      && AllStatus(s.currentProcesses.value, Ready)
      && DistinctIps(s.scheduledNodes.GetOr([])) && IpsWithin(s.scheduledNodes.GetOr([]), s.bootstrappedNodes.value)
      && s.totalScheduledProcs.GetOr(0) == Covered(s.currentProcesses.value, s.scheduledNodes.GetOr([]))
      && s.totalScheduledProcs.GetOr(0) < |s.currentProcesses.value|
      && s.runsLeft.None? && s.transformed.None? && s.finishedNodes.GetOr([]) == []
    case Launching =>
      && FullyScheduled(s)
      && ReadyOrRunning(s.currentProcesses.value)
      && Count(s.currentProcesses.value, Ready) > 0
      && (s.runsLeft.None? ==> AllStatus(s.currentProcesses.value, Ready))
      && (s.runsLeft.Some? ==> s.runsLeft == Some(Count(s.currentProcesses.value, Running)) && s.executedProcs.Some?)
      && s.finishedNodes.GetOr([]) == []
    case Waiting =>
      && FullyScheduled(s) && s.executedProcs.Some?
      && RunningOrCompleted(s.currentProcesses.value)
      && s.runsLeft == Some(Count(s.currentProcesses.value, Running)) && s.runsLeft.value > 0
      && FinishedAre(s.finishedNodes.GetOr([]), s.currentProcesses.value)
    case Collected => AllDone(s) && s.transformed.None?
    case Transformed => AllDone(s) && s.transformed == Some(1)
    case Converged => EndOfRun(s) && s.runFinished.None? && Booted(s)
    case Finished =>
      && EndOfRun(s) && s.runFinished == Some(1)
      && s.configureDone == Some(1) && s.createDone == Some(1) && s.createdNodes.Some? && s.createdNodes.value != []
      && (RunningNodes(s.createdNodes.value) == [] || Booted(s))
  }

  ghost predicate AllDone(s: Settings) {
    && Scheduled(s) && s.executedProcs.Some?
    && s.scheduleCompleted == Some(1) && s.totalScheduledProcs == s.totalProcesses
    && AllStatus(s.currentProcesses.value, Completed)
    && s.runsLeft == Some(0) && s.errorNodes.Some? && s.finishedNodes == Some([])
  }

  ghost predicate EndOfRun(s: Settings) {
    && TableAgreement(s) && s.procs2bRescheduled.GetOr([]) == [] && s.executedProcs.Some?
    && s.currentProcesses.Some? && s.currentProcesses.value != [] && AllStatus(s.currentProcesses.value, Completed)
    && IsSet(s.totalProcesses) && s.totalScheduledProcs == s.totalProcesses
    && s.converged == Some(1) && s.transformed.None? && s.runsLeft == Some(0) && s.failedNodes.None?
  }

  ghost predicate Inv(s: Settings) {
    exists ph :: InPhase(s, ph)
  }

  /** The one stage a phase triggers. */
  function StageOf(ph: Phase): Option<Stage> {
    match ph
    case Fresh => Some(Configure)
    case Configured => Some(Create)
    case Stranded => None
    case Booting => Some(Bootstrap)
    case Idle => Some(Schedule)
    case Confirming => Some(Schedule)
    case Launching => Some(Execute)
    case Waiting => Some(Wait)
    case Collected => Some(Transform)
    case Transformed => Some(Converge)
    case Converged => Some(Destroy)
    case Finished => None
  }

  lemma CountsInPhase(s: Settings, ph: Phase)
    requires InPhase(s, ph) && s.currentProcesses.Some?
    ensures ph in {Launching, Confirming} ==> Count(s.currentProcesses.value, Ready) > 0
    ensures ph !in {Launching, Confirming} ==> Count(s.currentProcesses.value, Ready) == 0
  {
    var ps := s.currentProcesses.value;
    CountZero(ps, Ready);
    CountFull(ps, Ready);
  }

  lemma RunningNodesAll(s: Settings)
    requires HasNodes(s)
    ensures RunningNodes(s.createdNodes.value) == s.createdNodes.value
  {
  }

  lemma EarlyTriggers(s: Settings, ph: Phase, st: Stage)
    requires InPhase(s, ph) && ph in {Fresh, Configured, Stranded, Booting}
    ensures Triggered(st, s) <==> StageOf(ph) == Some(st)
  {
    if ph == Booting {
      RunningNodesAll(s);
    }
  }

  lemma ScheduleTriggers(s: Settings, ph: Phase, st: Stage)
    requires InPhase(s, ph) && ph in {Idle, Confirming}
    ensures Triggered(st, s) <==> StageOf(ph) == Some(st)
  {
    RunningNodesAll(s);
    if s.currentProcesses.Some? {
      CountsInPhase(s, ph);
    }
  }

  lemma WorkTriggers(s: Settings, ph: Phase, st: Stage)
    requires InPhase(s, ph) && ph in {Launching, Waiting}
    ensures Triggered(st, s) <==> StageOf(ph) == Some(st)
  {
    RunningNodesAll(s);
    CountsInPhase(s, ph);
  }

  lemma DoneTriggers(s: Settings, ph: Phase, st: Stage)
    requires InPhase(s, ph) && ph in {Collected, Transformed}
    ensures Triggered(st, s) <==> StageOf(ph) == Some(st)
  {
    RunningNodesAll(s);
    CountsInPhase(s, ph);
  }

  lemma EndTriggers(s: Settings, ph: Phase, st: Stage)
    requires InPhase(s, ph) && ph in {Converged, Finished}
    ensures Triggered(st, s) <==> StageOf(ph) == Some(st)
  {
    if Booted(s) {
      RunningNodesAll(s);
    }
    CountsInPhase(s, ph);
  }

  /** In every phase exactly one trigger holds, and none in the two final ones. */
  lemma PhaseTriggers(s: Settings, ph: Phase, st: Stage)
    requires InPhase(s, ph)
    ensures Triggered(st, s) <==> StageOf(ph) == Some(st)
  {
    match ph
    case Fresh => EarlyTriggers(s, ph, st);
    case Configured => EarlyTriggers(s, ph, st);
    case Stranded => EarlyTriggers(s, ph, st);
    case Booting => EarlyTriggers(s, ph, st);
    case Idle => ScheduleTriggers(s, ph, st);
    case Confirming => ScheduleTriggers(s, ph, st);
    case Launching => WorkTriggers(s, ph, st);
    case Waiting => WorkTriggers(s, ph, st);
    case Collected => DoneTriggers(s, ph, st);
    case Transformed => DoneTriggers(s, ph, st);
    case Converged => EndTriggers(s, ph, st);
    case Finished => EndTriggers(s, ph, st);
  }
}

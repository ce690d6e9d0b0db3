/** Progress: a measure that never grows, shrinks on every step that is not an unproductive poll or launch, and so
  brings every fair run to its end. */
module JobProgress {
  import opened Records
  import opened Scheduler
  import opened JobState
  import opened TableLemmas
  import opened JobInvariant
  import opened JobSteps
  import opened JobRuns

  /** The phase, read off the settings. */
  function PhaseOf(s: Settings): Phase {
    if s.configureDone.None? then Fresh
    else if s.createDone.None? then Configured
    else if s.createdNodes.GetOr([]) == [] then Stranded
    else if s.runFinished.Some? then Finished
    else if s.bootstrapDone.None? then Booting
    else if IsSet(s.converged) then Converged
    else if IsSet(s.transformed) then Transformed
    else if !IsSet(s.scheduleStarted) then Idle
    else if !IsSet(s.scheduleCompleted) then Confirming
    else if Count(s.currentProcesses.GetOr([]), Ready) > 0 then Launching
    else if s.runsLeft != Some(0) then Waiting
    else Collected
  }

  lemma PhaseUnique(s: Settings, ph: Phase)
    requires InPhase(s, ph)
    ensures PhaseOf(s) == ph
  {
    if s.currentProcesses.Some? {
      CountsInPhase(s, ph);
    }
  }

  /** Iterations still allowed, the stage flags still to set in this iteration, and what the current stage still
    waits for: nodes to bootstrap, nodes to confirm, processes to launch, or processes to finish. */
  datatype Measure = Measure(iterations: nat, flags: nat, pending: nat)

  ghost predicate Less(a: Measure, b: Measure) {
    || a.iterations < b.iterations
    || (a.iterations == b.iterations && (a.flags < b.flags || (a.flags == b.flags && a.pending < b.pending)))
  }

  function Flags(ph: Phase): nat {
    match ph
    case Fresh => 11
    case Configured => 10
    case Booting => 8
    case Idle => 7
    case Confirming => 6
    case Launching => 5
    case Waiting => 4
    case Collected => 3
    case Transformed => 2
    case Converged => 1
    case Stranded => 0
    case Finished => 0
  }

  function Minus(a: nat, b: nat): nat {
    if a < b then 0 else a - b
  }

  function Iterations(s: Settings, ph: Phase, limit: nat): nat {
    if ph in {Fresh, Configured, Booting} then limit
    else if ph in {Converged, Stranded, Finished} then 0
    else Minus(limit, if s.systemId.GetOr(0) < 0 then 0 else s.systemId.GetOr(0))
  }

  function Pending(s: Settings, ph: Phase): nat {
    match ph
    case Booting => Minus(|s.createdNodes.GetOr([])|, |s.bootstrappedNodes.GetOr([])|)
    case Confirming => Minus(|s.bootstrappedNodes.GetOr([])|, |s.scheduledNodes.GetOr([])|)
    case Launching => Count(s.currentProcesses.GetOr([]), Ready)
    case Waiting => Count(s.currentProcesses.GetOr([]), Running)
    case _ => 0
  }

  function MeasureIn(s: Settings, ph: Phase, limit: nat): Measure {
    Measure(Iterations(s, ph, limit), Flags(ph) + if ph == Booting && s.bootStarted.None? then 1 else 0, Pending(s, ph))
  }

  function MeasureOf(s: Settings, limit: nat): Measure {
    MeasureIn(s, PhaseOf(s), limit)
  }

  /** The connector converges before iteration `limit`. */
  ghost predicate ConvergesBy(s: Settings, e: Env, limit: nat) {
    Triggered(Converge, s) && s.systemId.GetOr(0) + 1 >= limit ==> e.done
  }

  /** The iteration number of a job that is still iterating. */
  ghost predicate BoundedIn(s: Settings, ph: Phase, limit: nat) {
    && limit > 0
    && (ph in {Idle, Confirming, Launching, Waiting, Collected, Transformed} ==>
          s.systemId.Some? && 0 <= s.systemId.value < limit)
  }

  ghost predicate SomeNode(nodes: seq<Node>, answers: set<string>, known: seq<Node>) {
    exists n :: n in nodes && n.ip in answers && n.ip !in Ips(known)
  }

  ghost predicate SomeRec(ps: seq<Rec>, st: Status, answers: set<nat>) {
    exists p :: p in ps && p.status == st && p.id in answers
  }

  /** The step is not a poll or launch that gets no new answer. */
  ghost predicate ProductiveIn(s: Settings, ph: Phase, e: Env) {
    match ph
    case Booting => s.bootStarted.None? || SomeNode(s.createdNodes.GetOr([]), e.booted, s.bootstrappedNodes.GetOr([]))
    case Confirming => SomeNode(s.bootstrappedNodes.GetOr([]), e.scheduled, s.scheduledNodes.GetOr([]))
    case Launching => SomeRec(s.currentProcesses.GetOr([]), Ready, e.launched)
    case Waiting => SomeRec(s.currentProcesses.GetOr([]), Running, e.finished)
    case _ => true
  }

  ghost predicate Productive(s: Settings, e: Env) {
    ProductiveIn(s, PhaseOf(s), e)
  }

  /** Smaller, or unchanged when the step was unproductive. */
  ghost predicate Shrinks(s: Settings, ph: Phase, s': Settings, ph': Phase, e: Env, limit: nat) {
    && BoundedIn(s', ph', limit)
    && (|| Less(MeasureIn(s', ph', limit), MeasureIn(s, ph, limit))
        || (!ProductiveIn(s, ph, e) && MeasureIn(s', ph', limit) == MeasureIn(s, ph, limit)))
  }

  /** One step leads to a phase and makes the measure smaller, or leaves it unchanged when the step was unproductive. */
  ghost predicate Moves(s: Settings, ph: Phase, s': Settings, ph': Phase, e: Env, limit: nat) {
    InPhase(s', ph') && Shrinks(s, ph, s', ph', e, limit)
  }

  lemma ConfirmGrows(nodes: seq<Node>, answers: set<string>, known: seq<Node>)
    requires DistinctIps(known) && IpsWithin(known, nodes)
    ensures var c := Confirm(nodes, answers, known);
            && |known| <= |c| <= |nodes|
            && (SomeNode(nodes, answers, known) ==> |c| > |known|)
  {
    BootNodes(nodes, known, answers);
    ConfirmKeeps(nodes, answers, known);
    var c := Confirm(nodes, answers, known);
    if SomeNode(nodes, answers, known) {
      var n :| n in nodes && n.ip in answers && n.ip !in Ips(known);
      var j :| 0 <= j < |nodes| && nodes[j] == n;
      assert nodes[j].ip in Ips(c);
      assert c != known;
    }
  }

  lemma {:induction false} LaunchProgress(ps: seq<Rec>, launched: set<nat>)
    ensures Count(LaunchCurrent(ps, launched), Ready) <= Count(ps, Ready)
    ensures SomeRec(ps, Ready, launched) ==> Count(LaunchCurrent(ps, launched), Ready) < Count(ps, Ready)
  {
    if ps != [] {
      LaunchProgress(ps[1..], launched);
      assert LaunchCurrent(ps, launched)[1..] == LaunchCurrent(ps[1..], launched);
      if SomeRec(ps, Ready, launched) && !(ps[0].status == Ready && ps[0].id in launched) {
        var p :| p in ps && p.status == Ready && p.id in launched;
        assert p in ps[1..];
      }
    }
  }

  lemma {:induction false} FinishProgress(ps: seq<Rec>, finished: set<nat>)
    ensures Count(CompleteSet(ps, finished), Running) <= Count(ps, Running)
    ensures SomeRec(ps, Running, finished) ==> Count(CompleteSet(ps, finished), Running) < Count(ps, Running)
  {
    if ps != [] {
      FinishProgress(ps[1..], finished);
      assert CompleteSet(ps, finished)[1..] == CompleteSet(ps[1..], finished);
      if SomeRec(ps, Running, finished) && !(ps[0].status == Running && ps[0].id in finished) {
        var p :| p in ps && p.status == Running && p.id in finished;
        assert p in ps[1..];
      }
    }
  }

  // One lemma a phase

  lemma BootShrinks(s: Settings, s': Settings, e: Env, limit: nat)
    requires BoundedIn(s, Booting, limit) && s.createdNodes.Some? && s'.createdNodes == s.createdNodes
    requires var created, known := s.createdNodes.value, s.bootstrappedNodes.GetOr([]);
             && DistinctIps(known) && IpsWithin(known, created)
             && s'.bootstrappedNodes == Some(if IsSet(s.bootStarted) then Confirm(created, e.booted, known) else known)
    requires (s.bootStarted.None? || s.bootStarted == Some(1)) && s'.bootStarted == Some(1) && s'.systemId == Some(0)
    ensures Shrinks(s, Booting, s', Booting, e, limit) && Shrinks(s, Booting, s', Idle, e, limit)
  {
    ConfirmGrows(s.createdNodes.value, e.booted, s.bootstrappedNodes.GetOr([]));
  }

  lemma BootMoves(s: Settings, e: Env, limit: nat)
    requires InPhase(s, Booting) && BootstrapTriggered(s) && BoundedIn(s, Booting, limit)
    ensures var s' := BootstrapRun(s, e);
            Moves(s, Booting, s', Booting, e, limit) || Moves(s, Booting, s', Idle, e, limit)
  {
    BootstrapStep(s, e);
    BootShrinks(s, BootstrapRun(s, e), e, limit);
  }

  lemma ConfirmShrinks(s: Settings, s': Settings, e: Env, limit: nat)
    requires BoundedIn(s, Confirming, limit) && s'.systemId == s.systemId
    requires s.bootstrappedNodes.Some? && s'.bootstrappedNodes == s.bootstrappedNodes
    requires s'.scheduledNodes == Some(Confirm(s.bootstrappedNodes.value, e.scheduled, s.scheduledNodes.GetOr([])))
    requires DistinctIps(s.scheduledNodes.GetOr([])) && IpsWithin(s.scheduledNodes.GetOr([]), s.bootstrappedNodes.value)
    ensures Shrinks(s, Confirming, s', Confirming, e, limit) && Shrinks(s, Confirming, s', Launching, e, limit)
  {
    ConfirmGrows(s.bootstrappedNodes.value, e.scheduled, s.scheduledNodes.GetOr([]));
  }

  lemma ConfirmMoves(s: Settings, e: Env, limit: nat)
    requires InPhase(s, Confirming) && ScheduleTriggered(s) && BoundedIn(s, Confirming, limit)
    ensures var s' := CompleteScheduleRun(s, e);
            Moves(s, Confirming, s', Confirming, e, limit) || Moves(s, Confirming, s', Launching, e, limit)
  {
    CompleteStep(Job(false, false, 0), s, e);
    ConfirmShrinks(s, CompleteScheduleRun(s, e), e, limit);
  }

  lemma LaunchShrinks(s: Settings, s': Settings, e: Env, limit: nat)
    requires BoundedIn(s, Launching, limit) && s'.systemId == s.systemId
    requires s.currentProcesses.Some?
    requires s'.currentProcesses == Some(LaunchCurrent(s.currentProcesses.value, e.launched))
    ensures Shrinks(s, Launching, s', Launching, e, limit) && Shrinks(s, Launching, s', Waiting, e, limit)
  {
    LaunchProgress(s.currentProcesses.value, e.launched);
  }

  lemma LaunchMoves(job: Job, s: Settings, e: Env, limit: nat)
    requires InPhase(s, Launching) && ExecuteTriggered(s) && BoundedIn(s, Launching, limit)
    ensures var s' := ExecuteStored(job, s, e);
            Moves(s, Launching, s', Launching, e, limit) || Moves(s, Launching, s', Waiting, e, limit)
  {
    ExecuteStoredPhase(job, s, e);
    LaunchShrinks(s, ExecuteStored(job, s, e), e, limit);
  }

  lemma WaitShrinks(s: Settings, s': Settings, e: Env, limit: nat)
    requires BoundedIn(s, Waiting, limit) && s'.systemId == s.systemId
    requires s.currentProcesses.Some? && s'.currentProcesses == Some(CompleteSet(s.currentProcesses.value, e.finished))
    ensures Shrinks(s, Waiting, s', Waiting, e, limit) && Shrinks(s, Waiting, s', Collected, e, limit)
  {
    FinishProgress(s.currentProcesses.value, e.finished);
  }

  lemma WaitStoredPhase(s: Settings, e: Env)
    requires InPhase(s, Waiting)
    ensures InPhase(WaitStored(s, e), Waiting) || InPhase(WaitStored(s, e), Collected)
  {
    if Count(CompleteSet(s.currentProcesses.value, e.finished), Running) > 0 {
      WaitContinues(s, e);
    } else {
      WaitEnds(s, e);
    }
  }

  lemma WaitMoves(s: Settings, e: Env, limit: nat)
    requires InPhase(s, Waiting) && BoundedIn(s, Waiting, limit)
    ensures var s' := WaitStored(s, e);
            Moves(s, Waiting, s', Waiting, e, limit) || Moves(s, Waiting, s', Collected, e, limit)
  {
    WaitStoredPhase(s, e);
    WaitShrinks(s, WaitStored(s, e), e, limit);
  }

  lemma ConvergeMoves(s: Settings, e: Env, limit: nat)
    requires InPhase(s, Transformed) && BoundedIn(s, Transformed, limit) && ConvergesBy(s, e, limit)
    ensures Moves(s, Transformed, ConvergeRun(s, e).s, if e.done then Converged else Idle, e, limit)
  {
    ConvergeStep(s, e);
  }

  lemma EarlyMoves(job: Job, s: Settings, ph: Phase, st: Stage, e: Env, limit: nat) returns (ph': Phase)
    requires ph in {Fresh, Configured, Booting}
    requires InPhase(s, ph) && StageOf(ph) == Some(st) && Triggered(st, s) && Run(job, st, s, e).Ok?
    requires BoundedIn(s, ph, limit)
    ensures Moves(s, ph, Run(job, st, s, e).s, ph', e, limit)
  {
    if ph == Fresh {
      ph' := Configured;
    } else if ph == Configured {
      ph' := if e.machines == [] then Stranded else Booting;
    } else {
      BootMoves(s, e, limit);
      ph' := if Moves(s, ph, BootstrapRun(s, e), Booting, e, limit) then Booting else Idle;
    }
  }

  lemma ScheduleMoves(job: Job, s: Settings, ph: Phase, e: Env, limit: nat) returns (ph': Phase)
    requires ph in {Idle, Confirming}
    requires InPhase(s, ph) && ScheduleTriggered(s) && ScheduleRun(job, s, e).Ok? && BoundedIn(s, ph, limit)
    ensures Moves(s, ph, ScheduleRun(job, s, e).s, ph', e, limit)
  {
    var s' := ScheduleRun(job, s, e).s;
    if ph == Idle {
      StartStep(job, s, e);
      ph' := Confirming;
    } else {
      assert s' == CompleteScheduleRun(s, e) by { CompleteStep(job, s, e); }
      ConfirmMoves(s, e, limit);
      ph' := if Moves(s, ph, s', Confirming, e, limit) then Confirming else Launching;
    }
  }

  lemma WorkMoves(job: Job, s: Settings, ph: Phase, st: Stage, e: Env, limit: nat) returns (ph': Phase)
    requires ph in {Launching, Waiting}
    requires InPhase(s, ph) && StageOf(ph) == Some(st) && Triggered(st, s) && Run(job, st, s, e).Ok?
    requires BoundedIn(s, ph, limit)
    ensures Moves(s, ph, Run(job, st, s, e).s, ph', e, limit)
  {
    var s' := Run(job, st, s, e).s;
    if ph == Launching {
      assert s' == ExecuteStored(job, s, e) by { ExecuteStores(job, s, e); }
      LaunchMoves(job, s, e, limit);
      ph' := if Moves(s, ph, s', Launching, e, limit) then Launching else Waiting;
    } else {
      assert s' == WaitStored(s, e) by { WaitStep(s, e); WaitCounts(s, e); }
      WaitMoves(s, e, limit);
      ph' := if Moves(s, ph, s', Waiting, e, limit) then Waiting else Collected;
    }
  }

  lemma TransformMoves(s: Settings, e: Env, limit: nat)
    requires InPhase(s, Collected) && BoundedIn(s, Collected, limit)
    ensures Moves(s, Collected, TransformRun(s), Transformed, e, limit)
  {
    TransformStep(s);
    hide InPhase;
  }

  lemma DestroyMoves(job: Job, s: Settings, e: Env, limit: nat)
    requires InPhase(s, Converged) && BoundedIn(s, Converged, limit)
    ensures Moves(s, Converged, DestroyRun(job, s), Finished, e, limit)
  {
    DestroyStep(job, s);
    hide InPhase;
  }

  lemma LateMoves(job: Job, s: Settings, ph: Phase, st: Stage, e: Env, limit: nat) returns (ph': Phase)
    requires ph in {Collected, Transformed, Converged}
    requires InPhase(s, ph) && StageOf(ph) == Some(st) && Triggered(st, s) && Run(job, st, s, e).Ok?
    requires BoundedIn(s, ph, limit)
    requires ConvergesBy(s, e, limit)
    ensures Moves(s, ph, Run(job, st, s, e).s, ph', e, limit)
  {
    hide InPhase, BoundedIn, Moves, ConvergesBy, ConvergeRun, DestroyRun, TransformRun;
    if ph == Collected {
      TransformMoves(s, e, limit);
      ph' := Transformed;
    } else if ph == Transformed {
      ConvergeMoves(s, e, limit);
      ph' := if e.done then Converged else Idle;
    } else {
      DestroyMoves(job, s, e, limit);
      ph' := Finished;
    }
  }

  /** The progress measure: in every phase a step that does not raise makes the measure smaller, or leaves it
    alone when it was an unproductive poll or launch. */
  lemma StepMoves(job: Job, s: Settings, ph: Phase, st: Stage, e: Env, limit: nat) returns (ph': Phase)
    requires InPhase(s, ph) && StageOf(ph) == Some(st) && Triggered(st, s) && Run(job, st, s, e).Ok?
    requires BoundedIn(s, ph, limit) && ConvergesBy(s, e, limit)
    ensures Moves(s, ph, Run(job, st, s, e).s, ph', e, limit)
  {
    if ph in {Fresh, Configured, Booting} {
      ph' := EarlyMoves(job, s, ph, st, e, limit);
    } else if ph in {Idle, Confirming} {
      ph' := ScheduleMoves(job, s, ph, e, limit);
    } else if ph in {Launching, Waiting} {
      ph' := WorkMoves(job, s, ph, st, e, limit);
    } else {
      ph' := LateMoves(job, s, ph, st, e, limit);
    }
  }

  // ---------------------------------------------------------------------------------------------------------
  // Fair runs end

  /** The context after `t` driver steps of an endless schedule of inputs. */
  ghost function At(job: Job, ins: nat -> Input, t: nat): Ctx {
    if t == 0 then Ctx(EMPTY, false) else Drive(job, At(job, ins, t - 1), ins(t - 1).e, ins(t - 1).order)
  }

  ghost predicate Quiet(job: Job, ins: nat -> Input, limit: nat) {
    && limit > 0
    && forall t: nat {:trigger At(job, ins, t)} ::
         && Complete(ins(t).order)
         && !TriggeredRaises(job, At(job, ins, t).s, ins(t).e)
         && ConvergesBy(At(job, ins, t).s, ins(t).e, limit)
  }

  /** Some later step is productive, or the job has ended. */
  ghost predicate Fair(job: Job, ins: nat -> Input) {
    forall t: nat :: UsefulFrom(job, ins, t)
  }

  ghost predicate UsefulFrom(job: Job, ins: nat -> Input, t: nat) {
    exists t': nat :: t <= t' && Useful(job, ins, t')
  }

  ghost predicate Useful(job: Job, ins: nat -> Input, t: nat) {
    Ended(At(job, ins, t).s) || Productive(At(job, ins, t).s, ins(t).e)
  }

  ghost predicate Alive(c: Ctx, limit: nat) {
    !c.deleted && InPhase(c.s, PhaseOf(c.s)) && BoundedIn(c.s, PhaseOf(c.s), limit)
  }

  ghost function M(job: Job, ins: nat -> Input, limit: nat, t: nat): Measure {
    MeasureOf(At(job, ins, t).s, limit)
  }

  lemma AliveStep(job: Job, ins: nat -> Input, limit: nat, t: nat)
    requires Quiet(job, ins, limit) && Alive(At(job, ins, t), limit) && !Ended(At(job, ins, t).s)
    ensures Alive(At(job, ins, t + 1), limit)
    ensures || Less(M(job, ins, limit, t + 1), M(job, ins, limit, t))
            || (!Productive(At(job, ins, t).s, ins(t).e) && M(job, ins, limit, t + 1) == M(job, ins, limit, t))
  {
    var s, e := At(job, ins, t).s, ins(t).e;
    var ph := PhaseOf(s);
    PhaseEnded(s, ph);
    var st := StageOf(ph).value;
    PhaseTriggers(s, ph, st);
    DriveIsNext(job, s, ph, e, ins(t).order);
    assert Run(job, st, s, e).Ok?;
    var ph' := StepMoves(job, s, ph, st, e, limit);
    PhaseUnique(Run(job, st, s, e).s, ph');
  }

  ghost predicate EndedWithin(job: Job, ins: nat -> Input, t: nat, t': nat) {
    exists u: nat :: t <= u <= t' && EndsAt(job, ins, u)
  }

  ghost predicate EndsAt(job: Job, ins: nat -> Input, u: nat) {
    !At(job, ins, u).deleted && Ended(At(job, ins, u).s)
  }

  /** Up to any later time the job has ended, or it is still alive and its measure has not grown. */
  lemma {:induction false} NeverGrows(job: Job, ins: nat -> Input, limit: nat, t: nat, t': nat)
    requires Quiet(job, ins, limit) && Alive(At(job, ins, t), limit) && t <= t'
    ensures EndedWithin(job, ins, t, t')
         || (Alive(At(job, ins, t'), limit) && !Less(M(job, ins, limit, t), M(job, ins, limit, t')))
    decreases t' - t
  {
    hide Drive, InPhase, BoundedIn, MeasureIn, PhaseOf, ProductiveIn, Ended;
    if t < t' {
      NeverGrows(job, ins, limit, t, t' - 1);
      if EndedWithin(job, ins, t, t' - 1) {
        var u: nat :| t <= u <= t' - 1 && EndsAt(job, ins, u);
        assert t <= u <= t' && EndsAt(job, ins, u);
      } else {
        assert !EndsAt(job, ins, t' - 1);
        AliveStep(job, ins, limit, t' - 1);
      }
    }
  }

  lemma LessAfter(m: Measure, a: Measure, b: Measure, c: Measure)
    requires !Less(m, a) && !Less(a, b) && Less(c, b)
    ensures Less(c, m)
  {
  }

  /** From any time on there is a step that makes the measure smaller than it is now, or the job has ended. */
  lemma NextDecrease(job: Job, ins: nat -> Input, limit: nat, t: nat, m: Measure) returns (u: nat)
    requires Quiet(job, ins, limit) && Fair(job, ins) && Alive(At(job, ins, t), limit)
    requires !Less(m, M(job, ins, limit, t))
    ensures EndsAt(job, ins, u) || (Alive(At(job, ins, u), limit) && Less(M(job, ins, limit, u), m))
  {
    hide Drive, InPhase, BoundedIn, MeasureIn, PhaseOf, ProductiveIn, Ended;
    assert UsefulFrom(job, ins, t);
    var t': nat :| t <= t' && Useful(job, ins, t');
    NeverGrows(job, ins, limit, t, t');
    if EndedWithin(job, ins, t, t') {
      u :| t <= u <= t' && EndsAt(job, ins, u);
    } else {
      assert !EndsAt(job, ins, t');
      AliveStep(job, ins, limit, t');
      u := t' + 1;
      LessAfter(m, M(job, ins, limit, t), M(job, ins, limit, t'), M(job, ins, limit, u));
    }
  }

  lemma {:induction false} EndsFrom(job: Job, ins: nat -> Input, limit: nat, t: nat, m: Measure) returns (u: nat)
    requires Quiet(job, ins, limit) && Fair(job, ins) && Alive(At(job, ins, t), limit)
    requires !Less(m, M(job, ins, limit, t))
    ensures EndsAt(job, ins, u)
    decreases m.iterations, m.flags, m.pending
  {
    u := NextDecrease(job, ins, limit, t, m);
    if !EndsAt(job, ins, u) {
      u := EndsFrom(job, ins, limit, u, M(job, ins, limit, u));
    }
  }

  /** Every fair run ends: if no stage body raises, the connector converges within a bounded number of iterations,
    and the job is never left for good without a productive step, then some state is reached in which the run
    is finished (or no machine was ever handed out), and the next driver step deletes the context. */
  lemma FairRunsEnd(job: Job, ins: nat -> Input, limit: nat) returns (u: nat)
    requires Quiet(job, ins, limit) && Fair(job, ins)
    ensures !At(job, ins, u).deleted && Ended(At(job, ins, u).s) && At(job, ins, u + 1) == Ctx(At(job, ins, u).s, true)
  {
    assert InPhase(EMPTY, Fresh);
    u := EndsFrom(job, ins, limit, 0, M(job, ins, limit, 0));
    AliveUntil(job, ins, limit, u);
    var ph :| InPhase(At(job, ins, u).s, ph);
    PhaseEnded(At(job, ins, u).s, ph);
    DriveIsNext(job, At(job, ins, u).s, ph, ins(u).e, ins(u).order);
  }

  lemma {:induction false} AliveUntil(job: Job, ins: nat -> Input, limit: nat, u: nat)
    requires Quiet(job, ins, limit) && !At(job, ins, u).deleted
    ensures Inv(At(job, ins, u).s)
  {
    if u == 0 {
      assert InPhase(EMPTY, Fresh);
    } else {
      AliveUntil(job, ins, limit, u - 1);
      var s, e := At(job, ins, u - 1).s, ins(u - 1).e;
      var ph :| InPhase(s, ph);
      assert Complete(ins(u - 1).order) by { assert At(job, ins, u - 1) == At(job, ins, u - 1); }
      DriveIsNext(job, s, ph, e, ins(u - 1).order);
      if StageOf(ph).Some? {
        PhaseTriggers(s, ph, StageOf(ph).value);
        RunKeepsInv(job, s, ph, e, StageOf(ph).value);
      }
    }
  }
}

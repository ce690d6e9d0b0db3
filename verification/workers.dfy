/** Concurrent driver and delete tasks on one context. A driver task needs the advisory lock, which may expire while
  it is held, and then the row lock of the database; a delete task needs the row lock only. Every action is one
  indivisible move of one worker, so a list of actions is an interleaving. */
module Workers {
  import opened Records
  import opened JobState
  import opened JobInvariant
  import opened JobRuns

  datatype Pc =
    | Idle
    | Locked                 // holds the advisory lock, or held it before it expired
    | InStep(snapshot: Ctx)  // holds the row lock and works on what it read
    | Leaving                // done with the row, about to release the advisory lock
    | Found                  // a delete task that has seen the context
    | Deleting               // a delete task that holds the row lock

  datatype Op = StepDone(e: Env, order: seq<Stage>) | DeleteDone

  datatype System = System(row: Ctx, rowLock: Option<nat>, lock: Option<nat>, expired: bool, pcs: map<nat, Pc>,
                          log: seq<Op>)

  datatype Action =
    | Acquire(w: nat)
    | Begin(w: nat)
    | Finish(w: nat, e: Env, order: seq<Stage>)
    | Abort(w: nat)
    | Release(w: nat)
    | Expire
    | Find(w: nat)
    | BeginDelete(w: nat)
    | FinishDelete(w: nat)

  function PcOf(sys: System, w: nat): Pc {
    if w in sys.pcs then sys.pcs[w] else Pc.Idle
  }

  function Goto(sys: System, w: nat, pc: Pc): System {
    sys.(pcs := sys.pcs[w := pc])
  }

  /** One move; a move that is not possible leaves everything as it is. */
  ghost function Do(job: Job, sys: System, a: Action): System {
    match a
    case Acquire(w) =>
      if PcOf(sys, w) == Pc.Idle && sys.lock == None then Goto(sys, w, Locked).(lock := Some(w)) else sys
    case Begin(w) =>
      if PcOf(sys, w) != Locked then sys
      else if sys.rowLock == None && !sys.row.deleted then Goto(sys, w, InStep(sys.row)).(rowLock := Some(w))
      else Goto(sys, w, Leaving)
    case Finish(w, e, order) =>
      if !PcOf(sys, w).InStep? then sys
      else Goto(sys, w, Leaving).(row := Drive(job, PcOf(sys, w).snapshot, e, order), rowLock := None,
                                  log := sys.log + [StepDone(e, order)])
    case Abort(w) =>
      if !PcOf(sys, w).InStep? then sys else Goto(sys, w, Leaving).(rowLock := None)
    case Release(w) =>
      if PcOf(sys, w) != Leaving then sys
      else Goto(sys, w, Pc.Idle).(lock := None) // whoever holds it by then
    case Expire =>
      sys.(lock := None, expired := true)
    case Find(w) =>
      if PcOf(sys, w) == Pc.Idle && !sys.row.deleted then Goto(sys, w, Found) else sys
    case BeginDelete(w) =>
      if PcOf(sys, w) == Found && sys.rowLock == None then Goto(sys, w, Deleting).(rowLock := Some(w)) else sys
    case FinishDelete(w) =>
      if PcOf(sys, w) != Deleting then sys
      else Goto(sys, w, Pc.Idle).(row := sys.row.(deleted := true), rowLock := None, log := sys.log + [DeleteDone])
  }

  const START := System(Ctx(EMPTY, false), None, None, false, map[], [])

  ghost function DoAll(job: Job, acts: seq<Action>): System {
    if acts == [] then START else Do(job, DoAll(job, acts[..|acts| - 1]), acts[|acts| - 1])
  }

  /** What the completed operations do when they run one after the other. */
  ghost function Replay(job: Job, log: seq<Op>): Ctx {
    if log == [] then Ctx(EMPTY, false)
    else
      var c := Replay(job, log[..|log| - 1]);
      match log[|log| - 1]
      case StepDone(e, order) => Drive(job, c, e, order)
      case DeleteDone => c.(deleted := true)
  }

  /** Inside a step or a deletion. */
  predicate InRow(pc: Pc) {
    pc.InStep? || pc == Deleting
  }

  predicate UsesLock(pc: Pc) {
    pc == Locked || pc.InStep? || pc == Leaving
  }

  /** What holds of every worker. */
  predicate SafeAt(sys: System, w: nat) {
    && (InRow(PcOf(sys, w)) <==> sys.rowLock == Some(w))
    && (PcOf(sys, w).InStep? ==> PcOf(sys, w).snapshot == sys.row && !sys.row.deleted)
    && (!sys.expired ==> (UsesLock(PcOf(sys, w)) <==> sys.lock == Some(w)))
  }

  ghost predicate Safe(job: Job, sys: System) {
    && (forall w: nat :: SafeAt(sys, w))
    && sys.row == Replay(job, sys.log)
  }

  lemma Replayed(job: Job, log: seq<Op>, op: Op)
    ensures Replay(job, log + [op]) == match op
              case StepDone(e, order) => Drive(job, Replay(job, log), e, order)
              case DeleteDone => Replay(job, log).(deleted := true)
  {
    assert (log + [op])[..|log|] == log;
  }

  lemma DoKeepsSafeAt(job: Job, sys: System, a: Action, v: nat)
    requires SafeAt(sys, v) && (!a.Expire? ==> SafeAt(sys, a.w))
    ensures SafeAt(Do(job, sys, a), v)
  {
    hide Drive;
  }

  lemma DoKeepsSafe(job: Job, sys: System, a: Action)
    requires Safe(job, sys)
    ensures Safe(job, Do(job, sys, a))
  {
    forall v: nat ensures SafeAt(Do(job, sys, a), v) {
      DoKeepsSafeAt(job, sys, a, v);
    }
    hide Drive, SafeAt;
    match a
    case Finish(w, e, order) =>
      assert SafeAt(sys, w);
      Replayed(job, sys.log, StepDone(e, order));
    case FinishDelete(w) => Replayed(job, sys.log, DeleteDone);
    case _ =>
  }

  /** No lost update, for every interleaving and however often the advisory lock expires: at most one worker is
    inside a step or a deletion; it works on what is stored; and what is stored is the result of running the
    completed operations one after the other. As long as no lock has expired, at most one worker uses it. */
  lemma {:induction false} NoLostUpdate(job: Job, acts: seq<Action>)
    ensures var sys := DoAll(job, acts);
            && (forall w: nat, v: nat :: InRow(PcOf(sys, w)) && InRow(PcOf(sys, v)) ==> w == v)
            && (forall w: nat :: PcOf(sys, w).InStep? ==> PcOf(sys, w).snapshot == sys.row)
            && sys.row == Replay(job, sys.log)
            && (!sys.expired ==> forall w: nat, v: nat :: UsesLock(PcOf(sys, w)) && UsesLock(PcOf(sys, v)) ==> w == v)
  {
    AlwaysSafe(job, acts);
    var sys := DoAll(job, acts);
    hide DoAll, Replay;
    forall w: nat, v: nat
      ensures InRow(PcOf(sys, w)) && InRow(PcOf(sys, v)) ==> w == v
      ensures !sys.expired && UsesLock(PcOf(sys, w)) && UsesLock(PcOf(sys, v)) ==> w == v
    {
      assert SafeAt(sys, w) && SafeAt(sys, v);
    }
    forall w: nat ensures PcOf(sys, w).InStep? ==> PcOf(sys, w).snapshot == sys.row {
      assert SafeAt(sys, w);
    }
  }

  lemma {:induction false} AlwaysSafe(job: Job, acts: seq<Action>)
    ensures Safe(job, DoAll(job, acts))
  {
    if acts != [] {
      AlwaysSafe(job, acts[..|acts| - 1]);
      DoKeepsSafe(job, DoAll(job, acts[..|acts| - 1]), acts[|acts| - 1]);
    }
  }

  lemma DeletedMove(job: Job, sys: System, a: Action)
    requires sys.row.deleted && (a.Finish? ==> SafeAt(sys, a.w))
    ensures Do(job, sys, a).row == sys.row
  {
    hide Drive;
  }

  /** Once the context is deleted nothing changes what is stored, whatever the workers still do. */
  lemma {:induction false} DeletedStays(job: Job, acts: seq<Action>, more: seq<Action>)
    requires DoAll(job, acts).row.deleted
    ensures DoAll(job, acts + more).row == DoAll(job, acts).row
  {
    hide Drive, Replay;
    if more == [] {
      assert acts + more == acts;
    } else {
      var before := acts + more[..|more| - 1];
      DeletedStays(job, acts, more[..|more| - 1]);
      AlwaysSafe(job, before);
      var a := more[|more| - 1];
      assert a.Finish? ==> SafeAt(DoAll(job, before), a.w);
      assert (acts + more)[..|acts + more| - 1] == before;
      DeletedMove(job, DoAll(job, before), a);
      hide Do, SafeAt;
    }
  }

  /** So everything proved about single-threaded runs holds of what concurrent workers store: as long as the context
    is not deleted, its settings are in one of the phases of a job. */
  lemma {:induction false} ConcurrentInvariant(job: Job, acts: seq<Action>)
    ensures var row := DoAll(job, acts).row; row.deleted || Inv(row.s)
  {
    if acts == [] {
      assert InPhase(EMPTY, Fresh);
    } else {
      var before, a := DoAll(job, acts[..|acts| - 1]), acts[|acts| - 1];
      ConcurrentInvariant(job, acts[..|acts| - 1]);
      AlwaysSafe(job, acts[..|acts| - 1]);
      assert a.Finish? ==> SafeAt(before, a.w);
      if a.Finish? && PcOf(before, a.w).InStep? {
        DriveKeepsInv(job, before.row.s, before.row.s, a.e, a.order);
      }
    }
  }

  // ---------------------------------------------------------------------------------------------------------
  // What the tasks do

  /** The moves of a driver task, one after the other. */
  ghost function DriverTask(job: Job, sys: System, w: nat, e: Env, order: seq<Stage>): System {
    Do(job, Do(job, Do(job, Do(job, sys, Acquire(w)), Begin(w)), Finish(w, e, order)), Release(w))
  }

  /** The moves of a delete task. */
  ghost function DeleteTask(job: Job, sys: System, w: nat): System {
    Do(job, Do(job, Do(job, sys, Find(w)), BeginDelete(w)), FinishDelete(w))
  }

  ghost predicate Free(sys: System, w: nat) {
    PcOf(sys, w) == Pc.Idle && sys.lock == None && sys.rowLock == None
  }

  /** A driver task that is left alone takes the context one driver pass further, and gives both locks back. */
  lemma DriverTaskSteps(job: Job, sys: System, w: nat, e: Env, order: seq<Stage>)
    requires Free(sys, w) && !sys.row.deleted
    ensures var sys' := DriverTask(job, sys, w, e, order);
            Free(sys', w) && sys'.row == Drive(job, sys.row, e, order) && sys'.log == sys.log + [StepDone(e, order)]
  {
    hide Drive;
  }

  /** A delete task that is left alone deletes the context and gives the row lock back. */
  lemma DeleteTaskDeletes(job: Job, sys: System, w: nat)
    requires PcOf(sys, w) == Pc.Idle && sys.rowLock == None && !sys.row.deleted
    ensures var sys' := DeleteTask(job, sys, w);
            && sys'.row == Ctx(sys.row.s, true) && sys'.log == sys.log + [DeleteDone]
            && PcOf(sys', w) == Pc.Idle && sys'.rowLock == None && sys'.lock == sys.lock
  {
  }

  /** While one worker is in the row, or when the context is deleted, a driver task that begins gives up without a step,
    and a deletion does not begin. */
  lemma OthersWait(job: Job, sys: System, w: nat)
    requires sys.rowLock != None
    ensures PcOf(sys, w) == Locked ==>
              var sys' := Do(job, sys, Begin(w));
              PcOf(sys', w) == Leaving && sys'.row == sys.row && sys'.log == sys.log && sys'.rowLock == sys.rowLock
    ensures Do(job, sys, BeginDelete(w)) == sys
  {
  }

  /** A worker that leaves frees the advisory lock whoever holds it by then, so that after it has expired once two
    workers may hold it. */
  lemma ReleaseFrees(job: Job, sys: System, w: nat, v: nat)
    requires PcOf(sys, w) == Leaving && PcOf(sys, v) == Pc.Idle
    ensures Do(job, sys, Release(w)).lock == None
    ensures PcOf(Do(job, Do(job, sys, Release(w)), Acquire(v)), v) == Locked
  {
  }

  /** Only one worker at a time gets the advisory lock, until it expires. */
  lemma OneAcquires(job: Job, sys: System, w: nat)
    requires PcOf(sys, w) == Pc.Idle
    ensures var sys' := Do(job, sys, Acquire(w)); PcOf(sys', w) == Locked <==> sys.lock == None
    ensures sys.lock != None ==> Do(job, Do(job, sys, Expire), Acquire(w)).lock == Some(w)
  {
  }
}

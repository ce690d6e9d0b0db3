/** A whole polling pass of the wait stage on record values: how one record evolves while the running processes
  are polled in order, which processes are reported, and what the numbers computed afterwards mean. */
module WaitPass {
  import opened Records
  import opened FaultTolerance
  import opened JobState
  import opened TableLemmas
  import opened JobInvariant
  import opened JobSteps

  /** What one poll finds: the process has stopped, has not, its node cannot be reached (and is gone or not), or
    the poll fails for another reason. */
  datatype Answer = Stopped | NotStopped | Unreachable(terminated: bool) | Broken

  /** One poll of process `p` as it acts on any record. */
  function Polled(r: Rec, p: Rec, a: Answer): Rec {
    match a
    case Stopped => if r.id == p.id && r.status == Running then r.(status := Completed) else r
    case Unreachable(terminated) => Flag(r, p.ip, if terminated then None else Some(p.id))
    case _ => r
  }

  /** A record after the polls of the first `n` processes of the table; only processes that were running when the
    pass began are polled. */
  function Evolve(r: Rec, ps: seq<Rec>, answer: nat -> Answer, n: nat): Rec
    requires n <= |ps|
  {
    if n == 0 then r
    else
      var before := Evolve(r, ps, answer, n - 1);
      if ps[n - 1].status == Running then Polled(before, ps[n - 1], answer(ps[n - 1].id)) else before
  }

  function EvolveAll(rs: seq<Rec>, ps: seq<Rec>, answer: nat -> Answer, n: nat): (r: seq<Rec>)
    requires n <= |ps|
    ensures |r| == |rs|
    ensures forall i :: 0 <= i < |rs| ==> r[i] == Evolve(rs[i], ps, answer, n)
  {
    seq(|rs|, i requires 0 <= i < |rs| => Evolve(rs[i], ps, answer, n))
  }

  /** The address was found to be gone by one of the first `n` polls. */
  ghost predicate Gone(ps: seq<Rec>, ip: string, answer: nat -> Answer, n: nat)
    requires n <= |ps|
  {
    exists j :: 0 <= j < n && ps[j].status == Running && ps[j].ip == ip && answer(ps[j].id) == Unreachable(true)
  }

  /** Some process on the address could not be reached by the first `n` polls. */
  ghost predicate Lost(ps: seq<Rec>, ip: string, answer: nat -> Answer, n: nat)
    requires n <= |ps|
  {
    exists j :: 0 <= j < n && ps[j].status == Running && ps[j].ip == ip && answer(ps[j].id).Unreachable?
  }

  /** The positions of the processes that were running and report that they have stopped. */
  function Reports(ps: seq<Rec>, answer: nat -> Answer, n: nat): (r: seq<nat>)
    requires n <= |ps|
    ensures forall k :: 0 <= k < |r| ==> r[k] < n && ps[r[k]].status == Running && answer(ps[r[k]].id) == Stopped
  {
    if n == 0 then []
    else
      var reported := ps[n - 1].status == Running && answer(ps[n - 1].id) == Stopped;
      Reports(ps, answer, n - 1) + if reported then [n - 1] else []
  }

  /** A pass moves a record only from running to completed or failed, and changes nothing else in it. */
  lemma {:induction false} OnlyFromRunning(r: Rec, ps: seq<Rec>, answer: nat -> Answer, n: nat)
    requires n <= |ps|
    ensures var r' := Evolve(r, ps, answer, n);
            && r' == r.(status := r'.status)
            && (r'.status == r.status || (r.status == Running && r'.status in {Completed, Failed}))
  {
    if n > 0 {
      OnlyFromRunning(r, ps, answer, n - 1);
    }
  }

  /** No running record is left on an address that was found to be gone; on an address where every process was
    reached no record fails. */
  lemma {:induction false} FailsWithNode(r: Rec, ps: seq<Rec>, answer: nat -> Answer, n: nat)
    requires n <= |ps|
    ensures Gone(ps, r.ip, answer, n) ==> Evolve(r, ps, answer, n).status != Running
    ensures !Lost(ps, r.ip, answer, n) && r.status != Failed ==> Evolve(r, ps, answer, n).status != Failed
  {
    OnlyFromRunning(r, ps, answer, n);
    if n > 0 {
      FailsWithNode(r, ps, answer, n - 1);
      OnlyFromRunning(r, ps, answer, n - 1);
      if Gone(ps, r.ip, answer, n) {
        var j :| 0 <= j < n && ps[j].status == Running && ps[j].ip == r.ip && answer(ps[j].id) == Unreachable(true);
        if j < n - 1 {
          assert Gone(ps, r.ip, answer, n - 1);
        }
      }
      if !Lost(ps, r.ip, answer, n) {
        assert !Lost(ps, r.ip, answer, n - 1);
        assert !(ps[n - 1].status == Running && ps[n - 1].ip == r.ip && answer(ps[n - 1].id).Unreachable?);
      }
    }
  }

  /** The status of process `i` after a pass, in closed form: an unreachable process has failed; one that reports
    has completed, unless its node was found to be gone before its turn; any other is running, unless its node
    was found to be gone at all. */
  ghost function StatusAfter(ps: seq<Rec>, i: nat, answer: nat -> Answer, n: nat): Status
    requires i < |ps| && n <= |ps|
  {
    var p := ps[i];
    if p.status != Running then p.status
    else if i < n && answer(p.id).Unreachable? then Failed
    else if i < n && answer(p.id) == Stopped then if Gone(ps, p.ip, answer, i) then Failed else Completed
    else if Gone(ps, p.ip, answer, n) then Failed else Running
  }

  lemma GoneStep(ps: seq<Rec>, ip: string, answer: nat -> Answer, n: nat)
    requires n < |ps|
    ensures Gone(ps, ip, answer, n + 1)
       <==> || Gone(ps, ip, answer, n)
            || (ps[n].status == Running && ps[n].ip == ip && answer(ps[n].id) == Unreachable(true))
  {
  }

  lemma {:induction false} StatusAfterPass(ps: seq<Rec>, i: nat, answer: nat -> Answer, n: nat)
    requires i < |ps| && n <= |ps| && DistinctIds(ps)
    ensures Evolve(ps[i], ps, answer, n) == ps[i].(status := StatusAfter(ps, i, answer, n))
  {
    if n > 0 {
      StatusAfterPass(ps, i, answer, n - 1);
      GoneStep(ps, ps[i].ip, answer, n - 1);
      assert i != n - 1 ==> ps[i].id != ps[n - 1].id;
    }
  }

  // ---------------------------------------------------------------------------------------------------------
  // The numbers

  /** How many of the reported processes had already been flagged failed in the same pass. */
  ghost function LateReports(ps: seq<Rec>, answer: nat -> Answer, n: nat): nat
    requires n <= |ps|
  {
    if n == 0 then 0
    else
      var p := ps[n - 1];
      var late := p.status == Running && answer(p.id) == Stopped && Gone(ps, p.ip, answer, n - 1);
      LateReports(ps, answer, n - 1) + if late then 1 else 0
  }

  lemma {:induction false} CountSame(a: seq<Rec>, b: seq<Rec>, st: Status)
    requires |a| == |b| && forall i :: 0 <= i < |a| ==> (a[i].status == st <==> b[i].status == st)
    ensures Count(a, st) == Count(b, st)
  {
    if a != [] {
      CountSame(a[1..], b[1..], st);
    }
  }

  /** One poll completes at most the polled process. */
  lemma PollCompletes(ps: seq<Rec>, answer: nat -> Answer, n: nat)
    requires n < |ps| && DistinctIds(ps)
    ensures var was, now := EvolveAll(ps, ps, answer, n), EvolveAll(ps, ps, answer, n + 1);
            Count(now, Completed) == Count(was, Completed)
              + if ps[n].status == Running && answer(ps[n].id) == Stopped && !Gone(ps, ps[n].ip, answer, n)
                then 1 else 0
  {
    var was, now := EvolveAll(ps, ps, answer, n), EvolveAll(ps, ps, answer, n + 1);
    forall i | 0 <= i < |ps| && i != n ensures now[i].status == Completed <==> was[i].status == Completed {
      OnlyFromRunning(ps[i], ps, answer, n);
      assert ps[i].id != ps[n].id;
    }
    CountSame(now, was[n := now[n]], Completed);
    CountUpdate(was, n, now[n], Completed);
    StatusAfterPass(ps, n, answer, n);
    StatusAfterPass(ps, n, answer, n + 1);
  }

  /** Each report that is not late is one more completed record. */
  lemma {:induction false} ReportsCount(ps: seq<Rec>, answer: nat -> Answer, n: nat)
    requires n <= |ps| && DistinctIds(ps)
    ensures Count(EvolveAll(ps, ps, answer, n), Completed) + LateReports(ps, answer, n)
         == Count(ps, Completed) + |Reports(ps, answer, n)|
  {
    if n == 0 {
      CountSame(EvolveAll(ps, ps, answer, n), ps, Completed);
    } else {
      hide Evolve, EvolveAll, Gone, DistinctIds, Count;
      ReportsCount(ps, answer, n - 1);
      PollCompletes(ps, answer, n - 1);
    }
  }

  lemma NoneRunning(ps: seq<Rec>)
    requires Count(ps, RescheduleReady) == 0
    ensures Count(ps, Running) == 0 <==> forall p :: p in ps ==> p.status in {Ready, Completed, Failed}
  {
    CountZero(ps, RescheduleReady);
    CountZero(ps, Running);
  }

  lemma NoneWaiting(ps: seq<Rec>, answer: nat -> Answer)
    ensures Count(EvolveAll(ps, ps, answer, |ps|), RescheduleReady) == Count(ps, RescheduleReady)
  {
    var now := EvolveAll(ps, ps, answer, |ps|);
    forall i | 0 <= i < |ps| ensures now[i].status == RescheduleReady <==> ps[i].status == RescheduleReady {
      OnlyFromRunning(ps[i], ps, answer, |ps|);
    }
    CountSame(now, ps, RescheduleReady);
  }

  /** The runs left a pass computes from the lengths of its lists fall short of the number of running records by
    exactly the late reports. So they are right if and only if no process that was already flagged failed in the
    pass was reported finished in it; and then they are 0 exactly when nothing is running any more. */
  lemma RunsLeftAfterPass(ps: seq<Rec>, finished: seq<Rec>, answer: nat -> Answer)
    requires DistinctIds(ps) && FinishedAre(finished, ps) && Count(ps, RescheduleReady) == 0
    ensures var now := EvolveAll(ps, ps, answer, |ps|);
            var left := (|now| - Count(now, Ready)) - (|finished| + |Reports(ps, answer, |ps|)| + Count(now, Failed));
            && left == Count(now, Running) - LateReports(ps, answer, |ps|)
            && (left == Count(now, Running) <==> LateReports(ps, answer, |ps|) == 0)
            && (LateReports(ps, answer, |ps|) == 0 ==>
                  (left == 0 <==> forall p :: p in now ==> p.status in {Ready, Completed, Failed}))
  {
    hide Evolve, EvolveAll, Reports, LateReports, DistinctIds, Count;
    var now := EvolveAll(ps, ps, answer, |ps|);
    ReportsCount(ps, answer, |ps|);
    CountSplit(now);
    NoneWaiting(ps, answer);
    NoneRunning(now);
  }

  /** The entries of `s` at the given positions. */
  function Pick<T>(s: seq<T>, at: seq<nat>): (r: seq<T>)
    requires forall k :: 0 <= k < |at| ==> at[k] < |s|
    ensures |r| == |at|
    ensures forall k :: 0 <= k < |at| ==> r[k] == s[at[k]]
  {
    seq(|at|, k requires 0 <= k < |at| => s[at[k]])
  }

  lemma {:induction false} ReportsHas(ps: seq<Rec>, answer: nat -> Answer, n: nat, i: nat)
    requires i < n <= |ps| && ps[i].status == Running && answer(ps[i].id) == Stopped
    ensures i in Reports(ps, answer, n)
    ensures LateReports(ps, answer, n) == 0 ==> !Gone(ps, ps[i].ip, answer, i)
  {
    if i < n - 1 {
      ReportsHas(ps, answer, n - 1, i);
    }
  }

  lemma ReportedCompletes(ps: seq<Rec>, answer: nat -> Answer, i: nat)
    requires DistinctIds(ps) && LateReports(ps, answer, |ps|) == 0 && i < |ps|
    ensures var p := Evolve(ps[i], ps, answer, |ps|);
            && (i in Reports(ps, answer, |ps|) ==> p.status == Completed)
            && (p.status == Completed ==> i in Reports(ps, answer, |ps|) || p == ps[i])
  {
    StatusAfterPass(ps, i, answer, |ps|);
    var at := Reports(ps, answer, |ps|);
    hide Evolve, Reports, LateReports, Gone;
    if i in at {
      var k :| 0 <= k < |at| && at[k] == i;
      ReportsHas(ps, answer, |ps|, i);
    }
    if ps[i].status == Running && answer(ps[i].id) == Stopped {
      ReportsHas(ps, answer, |ps|, i);
    }
  }

  /** Without late reports the list of finished processes holds exactly the completed records after the pass. */
  lemma FinishedAfterPass(ps: seq<Rec>, finished: seq<Rec>, answer: nat -> Answer)
    requires DistinctIds(ps) && FinishedAre(finished, ps) && LateReports(ps, answer, |ps|) == 0
    ensures var now := EvolveAll(ps, ps, answer, |ps|);
            FinishedAre(finished + Pick(now, Reports(ps, answer, |ps|)), now)
  {
    var now, at := EvolveAll(ps, ps, answer, |ps|), Reports(ps, answer, |ps|);
    ReportsCount(ps, answer, |ps|);
    forall i | 0 <= i < |ps|
      ensures i in at ==> now[i].status == Completed
      ensures now[i].status == Completed ==> i in at || now[i] == ps[i]
      ensures ps[i].status == Completed ==> now[i] == ps[i]
    {
      ReportedCompletes(ps, answer, i);
      OnlyFromRunning(ps[i], ps, answer, |ps|);
    }
    hide Evolve, EvolveAll, Reports, LateReports, Count, DistinctIds;
    FinishedFrom(ps, finished, now, at);
  }

  lemma FinishedFrom(ps: seq<Rec>, finished: seq<Rec>, now: seq<Rec>, at: seq<nat>)
    requires FinishedAre(finished, ps) && |now| == |ps| && Count(now, Completed) == Count(ps, Completed) + |at|
    requires forall k :: 0 <= k < |at| ==> at[k] < |ps|
    requires forall i :: 0 <= i < |ps| ==>
               && (i in at ==> now[i].status == Completed)
               && (now[i].status == Completed ==> i in at || now[i] == ps[i])
               && (ps[i].status == Completed ==> now[i] == ps[i])
    ensures FinishedAre(finished + Pick(now, at), now)
  {
    var finished' := finished + Pick(now, at);
    forall f | f in finished' ensures f in now && f.status == Completed {
      if f in finished {
        var i :| 0 <= i < |ps| && ps[i] == f;
        assert now[i] == f;
      } else {
        var k :| 0 <= k < |at| && Pick(now, at)[k] == f;
        assert at[k] in at;
      }
    }
    forall p | p in now && p.status == Completed ensures p in finished' {
      var i :| 0 <= i < |ps| && now[i] == p;
      if i in at {
        var k :| 0 <= k < |at| && at[k] == i;
        assert Pick(now, at)[k] == p;
      } else {
        assert ps[i] in ps;
      }
    }
  }

  /** The difference is real: a node with two running processes is found to be gone by the poll of the first, and
    the second then reports that it has stopped. The runs left come out as -1. */
  lemma RunsLeftNegative() returns (ps: seq<Rec>, answer: nat -> Answer)
    ensures DistinctIds(ps) && FinishedAre([], ps) && Count(ps, RescheduleReady) == 0
    ensures var now := EvolveAll(ps, ps, answer, |ps|);
            (|now| - Count(now, Ready)) - (0 + |Reports(ps, answer, |ps|)| + Count(now, Failed)) == -1
  {
    ps := [Rec(1, "a", Running, 0), Rec(2, "a", Running, 0)];
    answer := (id: nat) => if id == 1 then Unreachable(true) else Stopped;
    var now := EvolveAll(ps, ps, answer, |ps|);
    assert ps[0].status == Running;
    assert Gone(ps, "a", answer, 1);
    StatusAfterPass(ps, 0, answer, 2);
    StatusAfterPass(ps, 1, answer, 2);
    assert now == [Rec(1, "a", Failed, 0), Rec(2, "a", Failed, 0)];
    assert Reports(ps, answer, 0) == [] && Reports(ps, answer, 1) == [] && Reports(ps, answer, 2) == [1];
    CountZero(ps, RescheduleReady);
    CountZero(ps, Completed);
    CountZero(now, Ready);
    CountFull(now, Failed);
  }

  // ---------------------------------------------------------------------------------------------------------
  // Passes without failures

  /** The answers a pass gets are those of the environment; any failed poll is one of an unreachable process. */
  ghost predicate Answers(answer: nat -> Answer, e: Env) {
    forall id: nat :: match answer(id)
      case Stopped => id !in e.unreachable && id in e.finished
      case NotStopped => id !in e.unreachable && id !in e.finished
      case _ => id in e.unreachable
  }

  ghost function StoppedIds(ps: seq<Rec>, finished: set<nat>, n: nat): set<nat>
    requires n <= |ps|
  {
    set j | 0 <= j < n && ps[j].status == Running && ps[j].id in finished :: ps[j].id
  }

  lemma {:induction false} EvolveCompletes(r: Rec, ps: seq<Rec>, answer: nat -> Answer, e: Env, n: nat)
    requires n <= |ps| && Answers(answer, e) && !PollFails(ps, e)
    ensures Evolve(r, ps, answer, n)
         == if r.id in StoppedIds(ps, e.finished, n) && r.status == Running then r.(status := Completed) else r
  {
    if n > 0 {
      EvolveCompletes(r, ps, answer, e, n - 1);
      var p := ps[n - 1];
      assert StoppedIds(ps, e.finished, n)
          == StoppedIds(ps, e.finished, n - 1) + (if p.status == Running && p.id in e.finished then {p.id} else {});
      if p.status == Running {
        assert p.id !in e.unreachable;
      }
    }
  }

  lemma StoppedIdsAre(ps: seq<Rec>, finished: set<nat>)
    ensures StoppedIds(ps, finished, |ps|) == ReportedIds(RunningRecs(ps), finished)
  {
    RunningRecsAre(ps);
    var rs := RunningRecs(ps);
    forall x | x in StoppedIds(ps, finished, |ps|) ensures x in ReportedIds(rs, finished) {
      var j :| 0 <= j < |ps| && ps[j].status == Running && ps[j].id in finished && ps[j].id == x;
      assert ps[j] in rs;
      var k :| 0 <= k < |rs| && rs[k] == ps[j];
    }
    forall x | x in ReportedIds(rs, finished) ensures x in StoppedIds(ps, finished, |ps|) {
      var k :| 0 <= k < |rs| && rs[k].id in finished && rs[k].id == x;
      assert rs[k] in rs;
      var j :| 0 <= j < |ps| && ps[j] == rs[k];
    }
  }

  function Completions(ps: seq<Rec>, at: seq<nat>): (r: seq<Rec>)
    requires forall k :: 0 <= k < |at| ==> at[k] < |ps|
    ensures |r| == |at|
    ensures forall k :: 0 <= k < |at| ==> r[k] == ps[at[k]].(status := Completed)
  {
    seq(|at|, k requires 0 <= k < |at| => ps[at[k]].(status := Completed))
  }

  lemma {:induction false} RunningRecsSnoc(ps: seq<Rec>, n: nat)
    requires n < |ps|
    ensures RunningRecs(ps[..n + 1]) == RunningRecs(ps[..n]) + if ps[n].status == Running then [ps[n]] else []
    decreases |ps|
  {
    if n == 0 {
      assert ps[..1] == [ps[0]];
      assert RunningRecs([ps[0]][1..]) == [];
    } else {
      assert ps[..n + 1][1..] == ps[1..][..n] && ps[..n][1..] == ps[1..][..n - 1];
      RunningRecsSnoc(ps[1..], n - 1);
    }
  }

  lemma {:induction false} ReportedSnoc(ps: seq<Rec>, p: Rec, finished: set<nat>)
    ensures Reported(ps + [p], finished)
         == Reported(ps, finished) + if p.id in finished then [p.(status := Completed)] else []
  {
    if ps == [] {
      assert [p][1..] == [];
    } else {
      assert (ps + [p])[1..] == ps[1..] + [p];
      ReportedSnoc(ps[1..], p, finished);
    }
  }

  lemma {:induction false} ReportsAre(ps: seq<Rec>, answer: nat -> Answer, e: Env, n: nat)
    requires n <= |ps| && Answers(answer, e) && !PollFails(ps, e)
    ensures Completions(ps, Reports(ps, answer, n)) == Reported(RunningRecs(ps[..n]), e.finished)
  {
    if n > 0 {
      ReportsAre(ps, answer, e, n - 1);
      RunningRecsSnoc(ps, n - 1);
      var p := ps[n - 1];
      if p.status == Running {
        assert p.id !in e.unreachable && (answer(p.id) == Stopped <==> p.id in e.finished);
        ReportedSnoc(RunningRecs(ps[..n - 1]), p, e.finished);
      } else {
        assert RunningRecs(ps[..n]) == RunningRecs(ps[..n - 1]);
      }
    }
  }

  /** Without a failure the pass does to all its lists what the job's wait step says. */
  lemma PassWithoutFailures(t: Tables, answer: nat -> Answer, e: Env)
    requires DistinctIds(t.current) && FinishedAre(t.finished, t.current)
    requires Answers(answer, e) && !PollFails(t.current, e)
    ensures var ps, n := t.current, |t.current|;
            PollAll(t, RunningRecs(ps), e.finished) ==
              Tables(EvolveAll(ps, ps, answer, n), EvolveAll(t.all, ps, answer, n),
                     EvolveAll(t.executed, ps, answer, n),
                     t.finished + Completions(ps, Reports(ps, answer, n)))
  {
    var ps := t.current;
    RunningRecsAre(ps);
    FinishedNew(t.finished, ps);
    PollAllTogether(t, RunningRecs(ps), e.finished);
    StoppedIdsAre(ps, e.finished);
    EvolvesTo(ps, ps, answer, e);
    EvolvesTo(t.all, ps, answer, e);
    EvolvesTo(t.executed, ps, answer, e);
    ReportsAre(ps, answer, e, |ps|);
    assert ps[..|ps|] == ps;
  }

  lemma EvolvesTo(rs: seq<Rec>, ps: seq<Rec>, answer: nat -> Answer, e: Env)
    requires Answers(answer, e) && !PollFails(ps, e)
    ensures EvolveAll(rs, ps, answer, |ps|) == CompleteSet(rs, StoppedIds(ps, e.finished, |ps|))
  {
    forall i | 0 <= i < |rs|
      ensures EvolveAll(rs, ps, answer, |ps|)[i] == CompleteSet(rs, StoppedIds(ps, e.finished, |ps|))[i]
    {
      EvolveCompletes(rs[i], ps, answer, e, |ps|);
    }
  }

  /** A pass keeps the history table in step with the current one even when processes fail: a prefix of completed
    records stays as it is, and twin records evolve alike. */
  lemma PassKeepsTables(h: seq<Rec>, ps: seq<Rec>, answer: nat -> Answer)
    requires AllStatus(h, Completed)
    ensures EvolveAll(h + ps, ps, answer, |ps|) == h + EvolveAll(ps, ps, answer, |ps|)
  {
    forall i | 0 <= i < |h| ensures Evolve(h[i], ps, answer, |ps|) == h[i] {
      OnlyFromRunning(h[i], ps, answer, |ps|);
    }
  }
}

/** The wait stage as Chiminey runs it: lists of shared record objects, polled one process at a time. */
module WaitStage {
  import opened Records
  import opened Processes
  import opened FaultTolerance
  import opened JobState
  import opened JobInvariant
  import opened WaitPass

  /** A poll that ends the pass: it failed for a reason that is not a lost connection, or the node of an
    unreachable process is not among the created ones. */
  predicate Raises(p: Rec, a: Answer, created: seq<Node>) {
    a == Broken || (a.Unreachable? && p.ip !in Ips(created))
  }

  ghost predicate PassRaises(ps: seq<Rec>, answer: nat -> Answer, created: seq<Node>, n: nat)
    requires n <= |ps|
  {
    exists j :: 0 <= j < n && ps[j].status == Running && Raises(ps[j], answer(ps[j].id), created)
  }

  /** In terms of nodes and answers: the poll of some running process fails for another reason than a lost connection,
    or its connection is lost and no created node has its address. */
  lemma RaisesMeans(ps: seq<Rec>, answer: nat -> Answer, created: seq<Node>)
    ensures PassRaises(ps, answer, created, |ps|)
       <==> exists j :: 0 <= j < |ps| && ps[j].status == Running
                        && (answer(ps[j].id) == Broken
                            || (answer(ps[j].id).Unreachable? && NoNode(created, ps[j].ip)))
  {
    forall j | 0 <= j < |ps| ensures NoNode(created, ps[j].ip) <==> ps[j].ip !in Ips(created) {
      if ps[j].ip in Ips(created) {
        var i :| 0 <= i < |created| && Ips(created)[i] == ps[j].ip;
      }
    }
  }

  ghost predicate NoNode(created: seq<Node>, ip: string) {
    forall i :: 0 <= i < |created| ==> created[i].ip != ip
  }

  /** Some process could not be reached by the first `n` polls. */
  ghost predicate AnyLost(ps: seq<Rec>, answer: nat -> Answer, n: nat)
    requires n <= |ps|
  {
    exists j :: 0 <= j < n && ps[j].status == Running && answer(ps[j].id).Unreachable?
  }

  /** Positions whose process was not running are not polled. */
  ghost predicate Quiet(ps: seq<Rec>, m: nat, n: nat) {
    m <= n <= |ps| && forall j :: m <= j < n ==> ps[j].status != Running
  }

  lemma {:induction false} SkipsRecord(r: Rec, ps: seq<Rec>, answer: nat -> Answer, m: nat, n: nat)
    requires Quiet(ps, m, n)
    ensures Evolve(r, ps, answer, n) == Evolve(r, ps, answer, m)
    ensures Reports(ps, answer, n) == Reports(ps, answer, m)
  {
    if m < n {
      SkipsRecord(r, ps, answer, m, n - 1);
    }
  }

  lemma SkipsFailures(ps: seq<Rec>, answer: nat -> Answer, created: seq<Node>, ip: string, m: nat, n: nat)
    requires Quiet(ps, m, n)
    ensures Gone(ps, ip, answer, n) <==> Gone(ps, ip, answer, m)
    ensures Lost(ps, ip, answer, n) <==> Lost(ps, ip, answer, m)
    ensures AnyLost(ps, answer, n) <==> AnyLost(ps, answer, m)
    ensures PassRaises(ps, answer, created, n) <==> PassRaises(ps, answer, created, m)
  {
  }

  lemma PolledAlike(r: Rec, r': Rec, p: Rec, p': Rec, a: Answer)
    requires Alike(r, r') && p.id == p'.id && p.ip == p'.ip
    ensures Alike(Polled(r, p, a), Polled(r', p', a))
  {
  }

  lemma PickSnoc(ps: seq<Process>, at: seq<nat>, i: nat)
    requires (forall k :: 0 <= k < |at| ==> at[k] < |ps|) && i < |ps|
    ensures Pick(ps, at + [i]) == Pick(ps, at) + [ps[i]]
  {
  }

  lemma PickReports(table: seq<Process>, loaded: seq<Process>, ps: seq<Rec>, answer: nat -> Answer, i: nat)
    requires i < |ps| == |table| && ps[i].status == Running
    ensures loaded + Pick(table, Reports(ps, answer, i + 1))
         == loaded + Pick(table, Reports(ps, answer, i)) + if answer(ps[i].id) == Stopped then [table[i]] else []
  {
    if answer(ps[i].id) == Stopped {
      PickSnoc(table, Reports(ps, answer, i), i);
    }
  }

  lemma ReadBack(loaded: seq<Process>, table: seq<Process>, at: seq<nat>)
    requires forall k :: 0 <= k < |at| ==> at[k] < |table|
    ensures Values(loaded + Pick(table, at)) == Values(loaded) + Pick(Values(table), at)
  {
  }

  lemma AddNode(before: seq<Node>, now: seq<Node>)
    requires |now| == |before| + 1 && before <= now && now[|before|].ip !in Ips(before)
    ensures DistinctIps(before) ==> DistinctIps(now)
    ensures forall ip :: ip in Ips(now) <==> ip in Ips(before) || ip == now[|before|].ip
  {
    assert Ips(now) == Ips(before) + [now[|before|].ip];
    forall i, j | DistinctIps(before) && 0 <= i < j < |now| ensures now[i].ip != now[j].ip {
      assert now[i].ip == Ips(before)[i];
    }
  }

  /** Every record object has evolved as the first `n` polls say, from what it held when the pass began. */
  ghost predicate RecordsAt(held: map<Process, Rec>, ps: seq<Rec>, was: map<Process, Rec>, answer: nat -> Answer,
                          n: nat)
    requires n <= |ps|
  {
    forall q :: q in held ==> q in was && RecordAt(held[q], was[q], ps, answer, n)
  }

  ghost predicate RecordAt(r: Rec, was: Rec, ps: seq<Rec>, answer: nat -> Answer, n: nat)
    requires n <= |ps|
  {
    Alike(r, Evolve(was, ps, answer, n)) && (!Lost(ps, r.ip, answer, n) ==> r.retry == was.retry)
  }

  /** The list holds every failed record of the table exactly once; `now` is what the table's objects hold. */
  ghost predicate CollectedExactly(table: seq<Process>, now: seq<Rec>, procs2b: seq<Process>)
    requires |now| == |table|
  {
    && Distinct(procs2b)
    && (forall p :: p in procs2b ==> exists k :: 0 <= k < |table| && table[k] == p && now[k].status == Failed)
    && (forall k :: 0 <= k < |table| && now[k].status == Failed ==> table[k] in procs2b)
  }

  /** The node is the first of its address. */
  ghost predicate FirstAt(created: seq<Node>, node: Node) {
    exists k :: 0 <= k < |created| && created[k] == node && forall j :: 0 <= j < k ==> created[j].ip != node.ip
  }

  ghost predicate FailuresAt(table: seq<Process>, now: seq<Rec>, failed: nat, procs2b: seq<Process>, nodes: seq<Node>,
                             ps: seq<Rec>, before: seq<Node>, created: seq<Node>, answer: nat -> Answer, n: nat)
    requires n <= |ps| && |now| == |table|
  {
    && failed == Count(now, Failed)
    && (if AnyLost(ps, answer, n) then CollectedExactly(table, now, procs2b) else procs2b == [] && nodes == before)
    && NodesRecorded(before, nodes, created, ps, answer, n)
  }

  /** The record of failed nodes has grown by the nodes found to be gone, as they were created, and holds none of them
    twice. */
  ghost predicate NodesRecorded(before: seq<Node>, nodes: seq<Node>, created: seq<Node>, ps: seq<Rec>,
                                answer: nat -> Answer, n: nat)
    requires n <= |ps|
  {
    && before <= nodes && (forall i :: |before| <= i < |nodes| ==> FirstAt(created, nodes[i]))
    && (DistinctIps(before) ==> DistinctIps(nodes))
    && (forall ip :: ip in Ips(nodes) <==> ip in Ips(before) || Gone(ps, ip, answer, n))
  }

  lemma RecordStep(r: Rec, r': Rec, p: Rec, was: Rec, ps: seq<Rec>, answer: nat -> Answer, i: nat)
    requires i < |ps| && ps[i].status == Running && p.id == ps[i].id && p.ip == ps[i].ip
    requires RecordAt(r, was, ps, answer, i)
    requires var a := answer(p.id);
             Alike(r', Polled(r, p, a)) && (!a.Unreachable? || r.ip != p.ip ==> r'.retry == r.retry)
    ensures RecordAt(r', was, ps, answer, i + 1)
  {
    PolledAlike(r, Evolve(was, ps, answer, i), p, ps[i], answer(p.id));
    if !Lost(ps, r'.ip, answer, i + 1) {
      assert !Lost(ps, r'.ip, answer, i);
      assert !(answer(p.id).Unreachable? && ps[i].ip == r'.ip);
    }
  }

  /** One more failure handled: the collected list is exact again. */
  lemma CollectsAgain(table: seq<Process>, now: seq<Rec>, procs2b: seq<Process>, procs2b': seq<Process>)
    requires Values(table) == now && DistinctIds(now) && Distinct(procs2b)
    requires forall p :: p in procs2b ==> p in table && p.status == Failed
    requires procs2b' == CollectInto(table, procs2b)
    ensures CollectedExactly(table, now, procs2b')
  {
    assert table[0..] == table;
    forall i | 0 <= i < |procs2b| ensures procs2b[i] in table && procs2b[i].status == Failed {
      assert procs2b[i] in procs2b;
    }
    CollectsOnce(table, 0, procs2b);
    forall p | p in procs2b' ensures exists k :: 0 <= k < |table| && table[k] == p && now[k].status == Failed {
      var i :| 0 <= i < |procs2b'| && procs2b'[i] == p;
      var k :| 0 <= k < |table| && table[k] == procs2b'[i];
      assert now[k] == p.Value();
    }
    forall k | 0 <= k < |table| && now[k].status == Failed ensures table[k] in procs2b' {
      assert now[k] == table[k].Value();
    }
  }

  lemma RaisesLater(ps: seq<Rec>, answer: nat -> Answer, created: seq<Node>, n: nat)
    requires n <= |ps| && PassRaises(ps, answer, created, n)
    ensures PassRaises(ps, answer, created, |ps|)
  {
  }

  /** Between two polled positions, and after the last one, nothing was running. */
  lemma Gap(ps: seq<Rec>, at: seq<nat>, k: nat, n: nat)
    requires k <= |at| && forall i, j :: 0 <= i < j < |at| ==> at[i] < at[j]
    requires forall i :: 0 <= i < |at| ==> at[i] < |ps|
    requires forall i :: 0 <= i < |ps| && ps[i].status == Running ==> i in at
    requires n == if k == 0 then 0 else at[k - 1] + 1
    ensures Quiet(ps, n, if k < |at| then at[k] else |ps|)
  {
    var m := if k < |at| then at[k] else |ps|;
    forall j | n <= j < m ensures j !in at {
      forall i | 0 <= i < |at| ensures at[i] != j {
        assert i >= k || at[i] <= at[k - 1];
      }
    }
  }

  /** The settings a pass writes, from what its lists hold. */
  function Stored(s: Settings, t: Tables, failed: nat, failedNodes: seq<Node>, procs2b: seq<Rec>): Settings {
    var working := Working(t, failed);
    var s' := s.(runsLeft := Some(working), errorNodes := Some(working),
                 finishedNodes := Some(if working == 0 then [] else t.finished),
                 allProcesses := Some(t.all), currentProcesses := Some(t.current), executedProcs := Some(t.executed));
    var s'' := if failedNodes != [] then s'.(failedNodes := Some(failedNodes)) else s';
    if procs2b != [] then s''.(scheduledStarted := Some(0), procs2bRescheduled := Some(procs2b)) else s''
  }

  ghost predicate AlikeAll(a: seq<Rec>, b: seq<Rec>) {
    |a| == |b| && forall i :: 0 <= i < |a| ==> Alike(a[i], b[i])
  }

  /** What a finished pass hands to the store, whatever failed in it: all tables evolved alike; the runs left short of
    the running records by the late reports; the finished list longer by the reports, or cleared when no run is left;
    the nodes found to be gone recorded; and, if some process could not be reached, every failed record of the current
    table exactly once in the list of processes to reschedule. Nothing else changes. */
  ghost predicate PassStored(s: Settings, s': Settings, answer: nat -> Answer)
    requires s.currentProcesses.Some?
  {
    var ps := s.currentProcesses.value;
    var now := s'.currentProcesses.GetOr([]);
    && OnlyWaitKeys(s, s')
    && s'.currentProcesses.Some? && s'.allProcesses.Some? && s'.executedProcs.Some?
    && AlikeAll(now, EvolveAll(ps, ps, answer, |ps|))
    && AlikeAll(s'.allProcesses.GetOr([]), EvolveAll(s.allProcesses.GetOr([]), ps, answer, |ps|))
    && AlikeAll(s'.executedProcs.GetOr([]), EvolveAll(s.executedProcs.GetOr([]), ps, answer, |ps|))
    && (Count(ps, RescheduleReady) == 0 ==> s'.runsLeft == Some(Count(now, Running) - LateReports(ps, answer, |ps|)))
    && s'.errorNodes == s'.runsLeft
    && s'.finishedNodes == Some(if s'.runsLeft == Some(0) then []
                                else s.finishedNodes.GetOr([]) + Pick(now, Reports(ps, answer, |ps|)))
    && NodesRecorded(s.failedNodes.GetOr([]), s'.failedNodes.GetOr([]), s.createdNodes.GetOr([]), ps, answer, |ps|)
    && if AnyLost(ps, answer, |ps|) then
         s'.scheduledStarted == Some(0) && FailedOnce(s'.procs2bRescheduled.GetOr([]), now)
       else
         s'.scheduledStarted == s.scheduledStarted && s'.procs2bRescheduled == s.procs2bRescheduled
  }

  /** `listed` holds every failed record of `now` exactly once, at least one, and nothing else. */
  ghost predicate FailedOnce(listed: seq<Rec>, now: seq<Rec>) {
    listed != [] && DistinctIds(listed) && forall r :: r in listed <==> r in now && r.status == Failed
  }

  lemma EvolvedAlike(now: seq<Rec>, was: seq<Rec>, ps: seq<Rec>, answer: nat -> Answer)
    requires |now| == |was| && forall i :: 0 <= i < |now| ==> RecordAt(now[i], was[i], ps, answer, |ps|)
    ensures AlikeAll(now, EvolveAll(was, ps, answer, |ps|))
    ensures !AnyLost(ps, answer, |ps|) ==> now == EvolveAll(was, ps, answer, |ps|)
  {
    if !AnyLost(ps, answer, |ps|) {
      forall i | 0 <= i < |now| ensures now[i] == EvolveAll(was, ps, answer, |ps|)[i] {
        OnlyFromRunning(was[i], ps, answer, |ps|);
      }
    }
  }

  lemma AlikeCounts(a: seq<Rec>, b: seq<Rec>, st: Status)
    requires AlikeAll(a, b)
    ensures Count(a, st) == Count(b, st)
  {
    CountSame(a, b, st);
  }

  /** The runs left of any pass that does not raise. */
  lemma StoredRunsLeft(ps: seq<Rec>, now: seq<Rec>, finished: seq<Rec>, answer: nat -> Answer, t: Tables)
    requires DistinctIds(ps) && FinishedAre(finished, ps) && Count(ps, RescheduleReady) == 0
    requires AlikeAll(now, EvolveAll(ps, ps, answer, |ps|))
    requires t.current == now && t.finished == finished + Pick(now, Reports(ps, answer, |ps|))
    ensures Working(t, Count(now, Failed)) == Count(now, Running) - LateReports(ps, answer, |ps|)
  {
    var after := EvolveAll(ps, ps, answer, |ps|);
    assert |now| == |after|;
    hide EvolveAll, Reports, LateReports, Count, AlikeAll, FinishedAre;
    RunsLeftAfterPass(ps, finished, answer);
    AlikeCounts(now, after, Ready);
    AlikeCounts(now, after, Failed);
    AlikeCounts(now, after, Running);
  }

  lemma LostFails(ps: seq<Rec>, now: seq<Rec>, answer: nat -> Answer)
    requires DistinctIds(ps) && AlikeAll(now, EvolveAll(ps, ps, answer, |ps|)) && AnyLost(ps, answer, |ps|)
    ensures exists k :: 0 <= k < |now| && now[k].status == Failed
  {
    var j :| 0 <= j < |ps| && ps[j].status == Running && answer(ps[j].id).Unreachable?;
    StatusAfterPass(ps, j, answer, |ps|);
    assert now[j].status == Failed;
  }

  lemma CollectedIds(table: seq<Process>, now: seq<Rec>, procs2b: seq<Process>)
    requires now == Values(table) && DistinctIds(now) && CollectedExactly(table, now, procs2b)
    ensures DistinctIds(Values(procs2b))
  {
    forall i, j | 0 <= i < j < |procs2b| ensures procs2b[i].id != procs2b[j].id {
      assert procs2b[i] in procs2b && procs2b[j] in procs2b;
      var k :| 0 <= k < |table| && table[k] == procs2b[i] && now[k].status == Failed;
      var l :| 0 <= l < |table| && table[l] == procs2b[j] && now[l].status == Failed;
      assert now[k].id == procs2b[i].id && now[l].id == procs2b[j].id;
    }
  }

  lemma CollectedValues(table: seq<Process>, now: seq<Rec>, procs2b: seq<Process>)
    requires now == Values(table) && DistinctIds(now) && CollectedExactly(table, now, procs2b)
    requires exists k :: 0 <= k < |now| && now[k].status == Failed
    ensures FailedOnce(Values(procs2b), now)
  {
    var listed := Values(procs2b);
    CollectedIds(table, now, procs2b);
    hide DistinctIds;
    forall r | r in listed ensures r in now && r.status == Failed {
      var i :| 0 <= i < |listed| && listed[i] == r;
      assert procs2b[i] in procs2b;
      var k :| 0 <= k < |table| && table[k] == procs2b[i] && now[k].status == Failed;
      assert now[k] == r;
    }
    forall r | r in now && r.status == Failed ensures r in listed {
      var k :| 0 <= k < |now| && now[k] == r;
      var i :| 0 <= i < |procs2b| && procs2b[i] == table[k];
      assert listed[i] == r;
    }
    var k :| 0 <= k < |now| && now[k].status == Failed;
    assert table[k] in procs2b;
  }

  lemma ReportedNow(ps: seq<Rec>, answer: nat -> Answer, e: Env)
    requires Answers(answer, e) && !PollFails(ps, e)
    ensures Pick(EvolveAll(ps, ps, answer, |ps|), Reports(ps, answer, |ps|))
              == Completions(ps, Reports(ps, answer, |ps|))
  {
    var at := Reports(ps, answer, |ps|);
    forall k | 0 <= k < |at| ensures Evolve(ps[at[k]], ps, answer, |ps|) == ps[at[k]].(status := Completed) {
      EvolveCompletes(ps[at[k]], ps, answer, e, |ps|);
      assert answer(ps[at[k]].id) == Stopped;
      assert ps[at[k]].id in StoppedIds(ps, e.finished, |ps|);
    }
  }

  ghost predicate BrokenPoll(ps: seq<Rec>, answer: nat -> Answer) {
    exists j :: 0 <= j < |ps| && ps[j].status == Running && answer(ps[j].id) == Broken
  }

  lemma LossIsFailure(ps: seq<Rec>, answer: nat -> Answer, e: Env, created: seq<Node>)
    requires Answers(answer, e)
    ensures PollFails(ps, e) <==> AnyLost(ps, answer, |ps|) || BrokenPoll(ps, answer)
    ensures PassRaises(ps, answer, created, |ps|) ==> PollFails(ps, e)
    ensures BrokenPoll(ps, answer) ==> PassRaises(ps, answer, created, |ps|)
  {
    forall j | 0 <= j < |ps|
      ensures ps[j].id in e.unreachable <==> answer(ps[j].id).Unreachable? || answer(ps[j].id) == Broken
    {
      var a := answer(ps[j].id);
    }
    if BrokenPoll(ps, answer) {
      var j :| 0 <= j < |ps| && ps[j].status == Running && answer(ps[j].id) == Broken;
      assert Raises(ps[j], answer(ps[j].id), created);
    }
  }

  /** What the lists hold after a pass that did not raise. */
  ghost predicate PassResult(s: Settings, answer: nat -> Answer, t: Tables, nodes: seq<Node>, listed: seq<Rec>)
    requires s.currentProcesses.Some?
  {
    var ps := s.currentProcesses.value;
    && AlikeAll(t.current, EvolveAll(ps, ps, answer, |ps|))
    && AlikeAll(t.all, EvolveAll(s.allProcesses.GetOr([]), ps, answer, |ps|))
    && AlikeAll(t.executed, EvolveAll(s.executedProcs.GetOr([]), ps, answer, |ps|))
    && t.finished == s.finishedNodes.GetOr([]) + Pick(t.current, Reports(ps, answer, |ps|))
    && NodesRecorded(s.failedNodes.GetOr([]), nodes, s.createdNodes.GetOr([]), ps, answer, |ps|)
    && if AnyLost(ps, answer, |ps|) then FailedOnce(listed, t.current)
       else
         && listed == [] && nodes == s.failedNodes.GetOr([])
         && t.current == EvolveAll(ps, ps, answer, |ps|)
         && t.all == EvolveAll(s.allProcesses.GetOr([]), ps, answer, |ps|)
         && t.executed == EvolveAll(s.executedProcs.GetOr([]), ps, answer, |ps|)
  }

  lemma NoNewFailures(ps: seq<Rec>, answer: nat -> Answer, e: Env)
    requires Answers(answer, e) && !PollFails(ps, e)
    ensures Count(EvolveAll(ps, ps, answer, |ps|), Failed) == Count(ps, Failed)
  {
    forall i | 0 <= i < |ps|
      ensures EvolveAll(ps, ps, answer, |ps|)[i].status == Failed <==> ps[i].status == Failed
    {
      EvolveCompletes(ps[i], ps, answer, e, |ps|);
    }
    CountSame(EvolveAll(ps, ps, answer, |ps|), ps, Failed);
  }

  /** Without failures the lists hold the tables of the job's wait step. */
  lemma WaitTablesAre(s: Settings, answer: nat -> Answer, e: Env)
    requires WaitTriggered(s) && Answers(answer, e) && !PollFails(s.currentProcesses.value, e)
    requires DistinctIds(s.currentProcesses.value) && FinishedAre(s.finishedNodes.GetOr([]), s.currentProcesses.value)
    ensures var ps := s.currentProcesses.value;
            var now := EvolveAll(ps, ps, answer, |ps|);
            WaitTables(s, e) == Tables(now, EvolveAll(s.allProcesses.GetOr([]), ps, answer, |ps|),
                                       EvolveAll(s.executedProcs.value, ps, answer, |ps|),
                                       s.finishedNodes.GetOr([]) + Pick(now, Reports(ps, answer, |ps|)))
  {
    var ps := s.currentProcesses.value;
    PassWithoutFailures(Tables(ps, s.allProcesses.GetOr([]), s.executedProcs.value, s.finishedNodes.GetOr([])),
                        answer, e);
    ReportedNow(ps, answer, e);
  }

  lemma HoldsWaitTables(s: Settings, answer: nat -> Answer, e: Env, t: Tables, nodes: seq<Node>, listed: seq<Rec>)
    requires WaitTriggered(s) && Answers(answer, e) && !PollFails(s.currentProcesses.value, e)
    requires DistinctIds(s.currentProcesses.value) && FinishedAre(s.finishedNodes.GetOr([]), s.currentProcesses.value)
    requires PassResult(s, answer, t, nodes, listed)
    ensures t == WaitTables(s, e) && listed == [] && nodes == s.failedNodes.GetOr([])
    ensures Count(t.current, Failed) == Count(s.currentProcesses.value, Failed)
  {
    hide EvolveAll, Reports, PollFails, DistinctIds, FinishedAre, AlikeAll, WaitTables, FailedOnce, AnyLost, Answers;
    hide Count;
    var ps := s.currentProcesses.value;
    LossIsFailure(ps, answer, e, []);
    WaitTablesAre(s, answer, e);
    NoNewFailures(ps, answer, e);
  }

  lemma StoredIsWaitRun(s: Settings, e: Env, nodes: seq<Node>)
    requires WaitTriggered(s) && !PollFails(s.currentProcesses.value, e) && nodes == s.failedNodes.GetOr([])
    ensures WaitRun(s, e) == Ok(Stored(s, WaitTables(s, e), Count(s.currentProcesses.value, Failed), nodes, []))
  {
    hide PollFails, WaitTables, Working, Count;
  }

  /** Without failures the pass stores what the job's wait step says. */
  lemma StoresWaitRun(s: Settings, answer: nat -> Answer, e: Env, t: Tables, nodes: seq<Node>, listed: seq<Rec>)
    requires WaitTriggered(s) && Answers(answer, e) && !PollFails(s.currentProcesses.value, e)
    requires DistinctIds(s.currentProcesses.value) && FinishedAre(s.finishedNodes.GetOr([]), s.currentProcesses.value)
    requires PassResult(s, answer, t, nodes, listed)
    ensures WaitRun(s, e) == Ok(Stored(s, t, Count(t.current, Failed), nodes, listed))
  {
    HoldsWaitTables(s, answer, e, t, nodes, listed);
    StoredIsWaitRun(s, e, nodes);
  }

  lemma StoresPass(s: Settings, answer: nat -> Answer, t: Tables, nodes: seq<Node>, listed: seq<Rec>)
    requires WaitTriggered(s) && PassResult(s, answer, t, nodes, listed)
    requires DistinctIds(s.currentProcesses.value) && FinishedAre(s.finishedNodes.GetOr([]), s.currentProcesses.value)
    ensures PassStored(s, Stored(s, t, Count(t.current, Failed), nodes, listed), answer)
  {
    hide EvolveAll, Reports, LateReports, DistinctIds, FinishedAre, AlikeAll, AnyLost, Count, Pick,
      Working, DistinctIps, Gone;
    var ps := s.currentProcesses.value;
    if Count(ps, RescheduleReady) == 0 {
      StoredRunsLeft(ps, t.current, s.finishedNodes.GetOr([]), answer, t);
    }
  }

  lemma SameIds(now: seq<Rec>, ps: seq<Rec>, answer: nat -> Answer)
    requires DistinctIds(ps) && AlikeAll(now, EvolveAll(ps, ps, answer, |ps|))
    ensures DistinctIds(now)
  {
    forall i | 0 <= i < |now| ensures now[i].id == ps[i].id {
      OnlyFromRunning(ps[i], ps, answer, |ps|);
    }
  }

  /** What a pass that did not raise stores, in the terms of the whole stage. */
  lemma StoresOutcome(s: Settings, answer: nat -> Answer, e: Env, t: Tables, nodes: seq<Node>, listed: seq<Rec>,
                      created: seq<Node>)
    requires WaitTriggered(s) && Answers(answer, e) && PassResult(s, answer, t, nodes, listed)
    requires DistinctIds(s.currentProcesses.value) && FinishedAre(s.finishedNodes.GetOr([]), s.currentProcesses.value)
    requires !PassRaises(s.currentProcesses.value, answer, created, |s.currentProcesses.value|)
    ensures var s' := Stored(s, t, Count(t.current, Failed), nodes, listed);
            && PassStored(s, s', answer)
            && if WaitRun(s, e).Ok? then s' == WaitRun(s, e).s else s'.scheduledStarted == Some(0)
  {
    var ps := s.currentProcesses.value;
    LossIsFailure(ps, answer, e, created);
    StoresPass(s, answer, t, nodes, listed);
    if PollFails(ps, e) {
      assert WaitRun(s, e).Raised?;
    } else {
      StoresWaitRun(s, answer, e, t, nodes, listed);
    }
  }

  lemma RaisesOutcome(s: Settings, answer: nat -> Answer, e: Env, created: seq<Node>)
    requires WaitTriggered(s) && Answers(answer, e)
    requires PassRaises(s.currentProcesses.value, answer, created, |s.currentProcesses.value|)
    ensures WaitRun(s, e).Raised?
  {
    LossIsFailure(s.currentProcesses.value, answer, e, created);
  }

  lemma TablesAlike(h: seq<Rec>, ps: seq<Rec>, now: seq<Rec>, all: seq<Rec>, answer: nat -> Answer)
    requires AllStatus(h, Completed)
    requires AlikeAll(now, EvolveAll(ps, ps, answer, |ps|)) && AlikeAll(all, EvolveAll(h + ps, ps, answer, |ps|))
    ensures AlikeAll(all, h + now)
    ensures forall i :: 0 <= i < |all| ==> all[i].id == (h + ps)[i].id
  {
    PassKeepsTables(h, ps, answer);
    forall i | 0 <= i < |all| ensures Alike(all[i], (h + now)[i]) && all[i].id == (h + ps)[i].id {
      OnlyFromRunning((h + ps)[i], ps, answer, |ps|);
      assert i >= |h| ==> Alike(now[i - |h|], EvolveAll(ps, ps, answer, |ps|)[i - |h|]);
    }
  }

  /** In a waiting job the stored tables agree through every pass, whatever fails in it: the stored history is the
    old history of completed records followed by the stored current table, on id, address and status, and its ids
    are still 1 up to the schedule index. */
  lemma StoredTablesAgree(s: Settings, s': Settings, answer: nat -> Answer)
    requires InPhase(s, Waiting) && PassStored(s, s', answer)
    ensures AlikeAll(s'.allProcesses.GetOr([]), History(s) + s'.currentProcesses.GetOr([]))
    ensures s'.scheduleIndex.GetOr(0) == |s'.allProcesses.GetOr([])|
    ensures forall i :: 0 <= i < |s'.allProcesses.GetOr([])| ==> s'.allProcesses.GetOr([])[i].id == i + 1
  {
    hide EvolveAll, Reports, LateReports, FinishedAre, AlikeAll, NodesRecorded, FailedOnce, RunningOrCompleted, Booted;
    TablesAlike(History(s), s.currentProcesses.value, s'.currentProcesses.GetOr([]), s'.allProcesses.GetOr([]), answer);
    AlikeLength(s'.allProcesses.GetOr([]),
                EvolveAll(s.allProcesses.value, s.currentProcesses.value, answer, |s.currentProcesses.value|));
  }

  lemma AlikeLength(a: seq<Rec>, b: seq<Rec>)
    requires AlikeAll(a, b)
    ensures |a| == |b|
  {
  }

  class Wait {
    const ftmanager: FTManager
    var createdNodes: seq<Node>
    var failedNodes: seq<Node>
    var executedProcs: seq<Process>
    var currentProcesses: seq<Process>
    var allProcesses: seq<Process>
    var procs2bRescheduled: seq<Process>
    var finishedNodes: seq<Process>
    var failedProcesses: nat

    constructor () {
      ftmanager := new FTManager();
      createdNodes, failedNodes := [], [];
      executedProcs, currentProcesses, allProcesses, procs2bRescheduled, finishedNodes := [], [], [], [], [];
      failedProcesses := 0;
    }

    /** The record objects of the three process lists. */
    function Objs(): set<Process>
      reads this
    {
      Objects([executedProcs, currentProcesses, allProcesses])
    }

    lemma InObjs()
      ensures forall p :: p in Objs() <==> p in executedProcs || p in currentProcesses || p in allProcesses
    {
      var lists := [executedProcs, currentProcesses, allProcesses];
      assert lists[0] == executedProcs && lists[1] == currentProcesses && lists[2] == allProcesses;
      forall p | p in executedProcs || p in currentProcesses || p in allProcesses ensures p in Objs() {
        var k := if p in executedProcs then 0 else if p in currentProcesses then 1 else 2;
        var j :| 0 <= j < |lists[k]| && lists[k][j] == p;
      }
    }

    /** What the trigger leaves in the fields. */
    ghost predicate LoadedFrom(s: Settings, reliability: bool)
      reads this, executedProcs, currentProcesses, allProcesses
    {
      && createdNodes == (if reliability then s.createdNodes.GetOr([]) else [])
      && failedNodes == s.failedNodes.GetOr([])
      && Values(executedProcs) == s.executedProcs.GetOr([])
      && Values(currentProcesses) == s.currentProcesses.GetOr([])
      && Values(allProcesses) == s.allProcesses.GetOr([])
      && procs2bRescheduled == []
      && failedProcesses == Count(Values(currentProcesses), Failed)
    }

    method LoadTables(executed: seq<Rec>, current: seq<Rec>, all: seq<Rec>)
      modifies this`executedProcs, this`currentProcesses, this`allProcesses
      ensures Values(executedProcs) == executed && Values(currentProcesses) == current && Values(allProcesses) == all
      ensures forall p :: p in executedProcs || p in currentProcesses || p in allProcesses ==> fresh(p)
    {
      var e := Load(executed);
      var a := Load(all);
      var c := Load(current);
      executedProcs, allProcesses, currentProcesses := e, a, c;
    }

    /** `reliability`: the job has the setting that says whether failed processes are rescheduled; without it the
      created nodes are not loaded either. */
    method IsTriggered(s: Settings, reliability: bool) returns (triggered: bool)
      modifies this
      ensures triggered == WaitTriggered(s)
      ensures triggered ==> LoadedFrom(s, reliability)
      ensures triggered ==> forall p :: p in executedProcs || p in currentProcesses || p in allProcesses ==> fresh(p)
    {
      hide Count, Values;
      failedNodes := s.failedNodes.GetOr([]);
      if s.executedProcs.None? {
        return false;
      }
      var current := s.currentProcesses.GetOr([]);
      LoadTables(s.executedProcs.value, current, s.allProcesses.GetOr([]));
      if |currentProcesses| == 0 || Count(current, Ready) != 0 || s.procs2bRescheduled.GetOr([]) != [] {
        return false;
      }
      procs2bRescheduled := [];
      createdNodes := if reliability then s.createdNodes.GetOr([]) else [];
      failedProcesses := ftmanager.GetTotalFailedProcesses(currentProcesses);
      return IsSet(s.runsLeft);
    }

    /** The processes a pass polls, and where they stand in the current table. */
    method RunningProcesses() returns (r: seq<Process>, ghost at: seq<nat>)
      ensures |r| == |at|
      ensures forall k :: 0 <= k < |at| ==>
                at[k] < |currentProcesses| && r[k] == currentProcesses[at[k]] && r[k].status == Running
      ensures forall k, l :: 0 <= k < l < |at| ==> at[k] < at[l]
      ensures forall i :: 0 <= i < |currentProcesses| && currentProcesses[i].status == Running ==> i in at
    {
      r, at := [], [];
      for i := 0 to |currentProcesses|
        invariant |r| == |at|
        invariant forall k :: 0 <= k < |at| ==>
                    at[k] < i && r[k] == currentProcesses[at[k]] && r[k].status == Running
        invariant forall k, l :: 0 <= k < l < |at| ==> at[k] < at[l]
        invariant forall j :: 0 <= j < i && currentProcesses[j].status == Running ==> j in at
      {
        if currentProcesses[i].status == Running {
          r, at := r + [currentProcesses[i]], at + [i];
        }
      }
    }

    /** Asking the node of one process; a lost connection is handed to the failure manager. */
    method IsJobFinished(p: Process, a: Answer) returns (fin: bool, raised: bool)
      modifies this`failedNodes, this`failedProcesses, this`procs2bRescheduled, Objs()
      ensures raised <==> Raises(old(p.Value()), a, createdNodes)
      ensures fin <==> a == Stopped
      ensures forall q :: q in Objs() ==>
                && (!raised && a.Unreachable? ==>
                    && Alike(q.Value(), Polled(old(q.Value()), old(p.Value()), a))
                    && Retried(old(q.retryLeft), q.retryLeft, q.ip == p.ip && q.id == p.id))
                && (raised || !a.Unreachable? ==> q.Value() == old(q.Value()))
      ensures if !raised && a.Unreachable? then
                && Failures(old(failedNodes), p.ip, a.terminated)
                && failedProcesses == Count(Values(currentProcesses), Failed)
                && procs2bRescheduled == CollectInto(currentProcesses, old(procs2bRescheduled))
              else
                failedNodes == old(failedNodes) && failedProcesses == old(failedProcesses)
                && procs2bRescheduled == old(procs2bRescheduled)
    {
      hide Values, CollectInto, Count;
      raised, fin := false, a == Stopped;
      match a
      case Stopped =>
      case NotStopped =>
      case Broken => raised := true;
      case Unreachable(terminated) =>
        var node := NodeAt(p.ip);
        if node.None? {
          raised := true;
        } else {
          failedProcesses, failedNodes, procs2bRescheduled := ftmanager.ManageFailedProcess(
            terminated, p.id, node.value, p.ip, failedNodes, executedProcs, currentProcesses, allProcesses,
            procs2bRescheduled);
        }
    }

    /** The record of the failed nodes after one lost process. */
    ghost predicate Failures(before: seq<Node>, ip: string, terminated: bool)
      reads this
    {
      if terminated && ip !in Ips(before) then
        && |failedNodes| == |before| + 1 && before < failedNodes && failedNodes[|before|].ip == ip
        && FirstAt(createdNodes, failedNodes[|before|])
      else failedNodes == before
    }

    method NodeAt(ip: string) returns (node: Option<Node>)
      ensures node.None? <==> ip !in Ips(createdNodes)
      ensures node.Some? ==> node.value.ip == ip && FirstAt(createdNodes, node.value)
    {
      for i := 0 to |createdNodes|
        invariant ip !in Ips(createdNodes)[..i] && forall j :: 0 <= j < i ==> createdNodes[j].ip != ip
      {
        if createdNodes[i].ip == ip {
          assert Ips(createdNodes)[i] == ip;
          return Some(createdNodes[i]);
        }
      }
      assert Ips(createdNodes)[..|createdNodes|] == Ips(createdNodes);
      return None;
    }

    /** Every running record with the id, in one list, becomes completed. */
    method MarkIn(ps: seq<Process>, id: nat)
      modifies ps`status
      ensures forall p :: p in ps ==>
                p.status == if p.id == id && old(p.status) == Running then Completed else old(p.status)
    {
      for i := 0 to |ps|
        invariant forall p :: p in ps ==>
                    p.status == old(p.status) || (p.id == id && old(p.status) == Running && p.status == Completed)
        invariant forall p :: p in ps[..i] ==> !(p.id == id && p.status == Running)
      {
        if ps[i].id == id && ps[i].status == Running {
          ps[i].status := Completed;
        }
      }
    }

    /** A process that has stopped is completed in all three lists. */
    method Complete(id: nat)
      modifies Objs()`status
      ensures forall q :: q in Objs() ==>
                q.status == if q.id == id && old(q.status) == Running then Completed else old(q.status)
    {
      InObjs();
      MarkIn(allProcesses, id);
      MarkIn(executedProcs, id);
      MarkIn(currentProcesses, id);
    }

    method AlreadyFinished(id: nat) returns (r: bool)
      ensures r <==> id in Ids(Values(finishedNodes))
    {
      r := false;
      for i := 0 to |finishedNodes|
        invariant r <==> id in Ids(Values(finishedNodes))[..i]
      {
        if finishedNodes[i].id == id {
          r := true;
        }
      }
      assert Ids(Values(finishedNodes))[..|finishedNodes|] == Ids(Values(finishedNodes));
    }

    /** The body of the polling loop. */
    method PollOne(p: Process, a: Answer) returns (raised: bool)
      modifies this`finishedNodes, this`failedNodes, this`failedProcesses, this`procs2bRescheduled, Objs()
      ensures raised <==> Raises(old(p.Value()), a, createdNodes)
      ensures finishedNodes
           == old(finishedNodes) + if a == Stopped && p.id !in Ids(old(Values(finishedNodes))) then [p] else []
      ensures !raised && (a == Stopped ==> p.id !in Ids(old(Values(finishedNodes)))) ==>
                forall q :: q in Objs() ==> Alike(q.Value(), Polled(old(q.Value()), old(p.Value()), a))
      ensures raised || (a == Stopped && p.id in Ids(old(Values(finishedNodes)))) ==>
                forall q :: q in Objs() ==> q.Value() == old(q.Value())
      ensures forall q :: q in Objs() && (!a.Unreachable? || q.ip != p.ip) ==> q.retryLeft == old(q.retryLeft)
      ensures if !raised && a.Unreachable? then
                && Failures(old(failedNodes), p.ip, a.terminated)
                && failedProcesses == Count(Values(currentProcesses), Failed)
                && procs2bRescheduled == CollectInto(currentProcesses, old(procs2bRescheduled))
              else
                failedNodes == old(failedNodes) && failedProcesses == old(failedProcesses)
                && procs2bRescheduled == old(procs2bRescheduled)
    {
      var fin;
      fin, raised := IsJobFinished(p, a);
      if fin {
        var again := AlreadyFinished(p.id);
        if !again {
          finishedNodes := finishedNodes + [p];
          Complete(p.id);
        }
      }
    }

    /** The tables and lists after the polls of the first `n` processes of a table that was `ps` when the pass
      began; `was` is what the record objects held then. */
    ghost predicate PolledUpTo(ps: seq<Rec>, was: map<Process, Rec>, loaded: seq<Process>, answer: nat -> Answer,
                            n: nat)
      reads this, Objs()
      requires n <= |ps| == |currentProcesses|
    {
      && RecordsAt(Held(), ps, was, answer, n)
      && finishedNodes == loaded + Pick(currentProcesses, Reports(ps, answer, n))
    }

    /** What is known of the failures after those polls. */
    ghost predicate FailuresUpTo(ps: seq<Rec>, before: seq<Node>, answer: nat -> Answer, n: nat)
      reads this, currentProcesses
      requires n <= |ps|
    {
      FailuresAt(currentProcesses, Values(currentProcesses), failedProcesses, procs2bRescheduled, failedNodes, ps,
                 before, createdNodes, answer, n)
    }

    /** What every record object holds. */
    ghost function Held(): map<Process, Rec>
      reads this, Objs()
    {
      map q | q in Objs() :: q.Value()
    }

    lemma Skip(ps: seq<Rec>, was: map<Process, Rec>, loaded: seq<Process>, before: seq<Node>, answer: nat -> Answer,
               m: nat, n: nat)
      requires Quiet(ps, m, n) && InPass(ps, was, loaded, before, answer, m)
      ensures InPass(ps, was, loaded, before, answer, n)
    {
      var held := Held();
      forall q | q in held ensures q in was && RecordAt(held[q], was[q], ps, answer, n) {
        SkipsRecord(was[q], ps, answer, m, n);
        SkipsFailures(ps, answer, createdNodes, held[q].ip, m, n);
      }
      SkipsRecord(Rec(0, "", Ready, 0), ps, answer, m, n);
      SkipsFailures(ps, answer, createdNodes, "", m, n);
      forall ip ensures Gone(ps, ip, answer, n) <==> Gone(ps, ip, answer, m) {
        SkipsFailures(ps, answer, createdNodes, ip, m, n);
      }
    }

    /** The facts about the tables that the whole pass relies on. */
    ghost predicate PassTables(ps: seq<Rec>, was: map<Process, Rec>, loaded: seq<Process>)
      reads this, Objs()
    {
      && |ps| == |currentProcesses| && DistinctIds(ps)
      && (forall k :: 0 <= k < |ps| ==> currentProcesses[k].id == ps[k].id && currentProcesses[k].ip == ps[k].ip)
      && (forall f, k :: 0 <= f < |loaded| && 0 <= k < |ps| && ps[k].status == Running ==> loaded[f].id != ps[k].id)
    }

    /** Everything that holds between two polls of a pass. */
    ghost predicate InPass(ps: seq<Rec>, was: map<Process, Rec>, loaded: seq<Process>, before: seq<Node>,
                           answer: nat -> Answer, n: nat)
      reads this, Objs(), currentProcesses
    {
      && n <= |ps| && PassTables(ps, was, loaded) && DistinctIds(Values(currentProcesses))
      && PolledUpTo(ps, was, loaded, answer, n) && FailuresUpTo(ps, before, answer, n)
      && !PassRaises(ps, answer, createdNodes, n)
    }

    lemma NotAgain(ps: seq<Rec>, was: map<Process, Rec>, loaded: seq<Process>, answer: nat -> Answer, i: nat)
      requires PassTables(ps, was, loaded) && i < |ps| && ps[i].status == Running
      requires PolledUpTo(ps, was, loaded, answer, i)
      ensures currentProcesses[i].id !in Ids(Values(finishedNodes))
    {
      var at := Reports(ps, answer, i);
      forall k | 0 <= k < |finishedNodes| ensures finishedNodes[k].id != currentProcesses[i].id {
        if k >= |loaded| {
          assert finishedNodes[k] == currentProcesses[at[k - |loaded|]];
        }
      }
    }

    /** From the state before a poll, given as values, to this one. */
    lemma FailuresStep(prior: seq<Rec>, priorNodes: seq<Node>, priorFailed: nat, prior2b: seq<Process>,
                       ps: seq<Rec>, before: seq<Node>, answer: nat -> Answer, i: nat)
      requires i < |ps| == |currentProcesses| == |prior| && DistinctIds(Values(currentProcesses))
      requires ps[i].status == Running
      requires FailuresAt(currentProcesses, prior, priorFailed, prior2b, priorNodes, ps, before, createdNodes, answer,
                          i)
      requires var now, a := Values(currentProcesses), answer(ps[i].id);
               && (forall k :: 0 <= k < |now| ==> Alike(now[k], Polled(prior[k], prior[i], a)))
               && if a.Unreachable? then
                    && Failures(priorNodes, ps[i].ip, a.terminated)
                    && failedProcesses == Count(now, Failed)
                    && procs2bRescheduled == CollectInto(currentProcesses, prior2b)
                  else
                    failedNodes == priorNodes && failedProcesses == priorFailed && procs2bRescheduled == prior2b
      ensures FailuresUpTo(ps, before, answer, i + 1)
    {
      var now, a := Values(currentProcesses), answer(ps[i].id);
      forall ip
        ensures Gone(ps, ip, answer, i + 1) <==> Gone(ps, ip, answer, i) || (ps[i].ip == ip && a == Unreachable(true))
      {
        GoneStep(ps, ip, answer, i);
      }
      if a.Unreachable? {
        assert AnyLost(ps, answer, i + 1);
        hide Gone, AnyLost, DistinctIds, DistinctIps, Count;
        CollectsAgain(currentProcesses, now, prior2b, procs2bRescheduled) by {
          StillFailed(prior, prior2b, prior[i], a, AnyLost(ps, answer, i));
        }
        if a.terminated && ps[i].ip !in Ips(priorNodes) {
          AddNode(priorNodes, failedNodes);
        }
      } else {
        assert AnyLost(ps, answer, i + 1) <==> AnyLost(ps, answer, i);
        hide Gone, AnyLost, DistinctIds, DistinctIps;
        CountSame(now, prior, Failed);
      }
    }

    lemma StillFailed(prior: seq<Rec>, prior2b: seq<Process>, p: Rec, a: Answer, lost: bool)
      requires |prior| == |currentProcesses|
      requires if lost then CollectedExactly(currentProcesses, prior, prior2b) else prior2b == []
      requires forall k :: 0 <= k < |prior| ==> Alike(currentProcesses[k].Value(), Polled(prior[k], p, a))
      ensures Distinct(prior2b) && forall p :: p in prior2b ==> p in currentProcesses && p.status == Failed
    {
    }

    lemma HeldStep(prior: map<Process, Rec>, ps: seq<Rec>, was: map<Process, Rec>, answer: nat -> Answer, p: Process,
                   i: nat)
      requires i < |ps| && ps[i].status == Running && p.id == ps[i].id && p.ip == ps[i].ip
      requires prior.Keys == Objs() && RecordsAt(prior, ps, was, answer, i) && p in prior
      requires var a := answer(ps[i].id);
               forall q :: q in Objs() ==>
                 && prior[q].id == q.id && prior[q].ip == q.ip
                 && Alike(q.Value(), Polled(prior[q], prior[p], a))
                 && (!a.Unreachable? || q.ip != p.ip ==> q.retryLeft == prior[q].retry)
      ensures RecordsAt(Held(), ps, was, answer, i + 1)
    {
      hide Polled, Evolve, Lost, RecordAt, Objects;
      forall q | q in Held() ensures q in was && RecordAt(Held()[q], was[q], ps, answer, i + 1) {
        RecordStep(prior[q], q.Value(), prior[p], was[q], ps, answer, i);
      }
    }

    lemma RecordsStep(prior: map<Process, Rec>, ps: seq<Rec>, was: map<Process, Rec>, loaded: seq<Process>,
                      answer: nat -> Answer, i: nat)
      requires PassTables(ps, was, loaded) && i < |ps| && ps[i].status == Running
      requires prior.Keys == Objs() && RecordsAt(prior, ps, was, answer, i) && currentProcesses[i] in prior
      requires var p, a := currentProcesses[i], answer(ps[i].id);
               && (forall q :: q in Objs() ==>
                     && prior[q].id == q.id && prior[q].ip == q.ip
                     && Alike(q.Value(), Polled(prior[q], prior[p], a))
                     && (!a.Unreachable? || q.ip != p.ip ==> q.retryLeft == prior[q].retry))
               && finishedNodes
                    == loaded + Pick(currentProcesses, Reports(ps, answer, i)) + if a == Stopped then [p] else []
      ensures PolledUpTo(ps, was, loaded, answer, i + 1)
    {
      HeldStep(prior, ps, was, answer, currentProcesses[i], i);
      hide RecordsAt, Evolve, Objects, Polled, Held, Reports;
      PickReports(currentProcesses, loaded, ps, answer, i);
    }

    /** One turn of the polling loop. */
    method PollNext(ghost i: nat, p: Process, answer: nat -> Answer, ghost ps: seq<Rec>, ghost was: map<Process, Rec>,
                    ghost loaded: seq<Process>, ghost before: seq<Node>)
        returns (raised: bool)
      requires InPass(ps, was, loaded, before, answer, i)
      requires i < |ps| && p == currentProcesses[i] && ps[i].status == Running
      modifies this`finishedNodes, this`failedNodes, this`failedProcesses, this`procs2bRescheduled, Objs()
      ensures raised <==> PassRaises(ps, answer, createdNodes, i + 1)
      ensures !raised ==> InPass(ps, was, loaded, before, answer, i + 1)
    {
      hide Evolve, Lost, Gone, AnyLost, RecordAt, FailuresAt, Count, Polled, Reports;
      InObjs();
      NotAgain(ps, was, loaded, answer, i);
      ghost var prior, prior2b := Values(currentProcesses), procs2bRescheduled;
      ghost var priorNodes, priorFailed := failedNodes, failedProcesses;
      ghost var held := Held();
      raised := PollOne(p, answer(p.id));
      if !raised {
        RecordsStep(held, ps, was, loaded, answer, i);
        FailuresStep(prior, priorNodes, priorFailed, prior2b, ps, before, answer, i);
      }
    }

    lemma Begins(ps: seq<Rec>, finished: seq<Rec>, answer: nat -> Answer)
      requires ps == Values(currentProcesses) && DistinctIds(ps) && FinishedAre(finished, ps)
      requires Values(finishedNodes) == finished && procs2bRescheduled == [] && failedProcesses == Count(ps, Failed)
      ensures InPass(ps, Held(), finishedNodes, failedNodes, answer, 0)
    {
      forall f, k | 0 <= f < |finishedNodes| && 0 <= k < |ps| && ps[k].status == Running
        ensures finishedNodes[f].id != ps[k].id
      {
        assert finished[f] in finished;
      }
    }

    lemma Ends(ps: seq<Rec>, was: map<Process, Rec>, loaded: seq<Process>, finished: seq<Rec>, before: seq<Node>,
               answer: nat -> Answer)
      requires InPass(ps, was, loaded, before, answer, |ps|) && Values(loaded) == finished
      ensures FailuresUpTo(ps, before, answer, |ps|) && !PassRaises(ps, answer, createdNodes, |ps|)
      ensures Values(finishedNodes) == finished + Pick(Values(currentProcesses), Reports(ps, answer, |ps|))
      ensures forall q :: q in Objs() ==> q in was && RecordAt(q.Value(), was[q], ps, answer, |ps|)
    {
      hide Evolve, Lost, RecordAt, Reports, FailuresUpTo, DistinctIds, Objects, PassRaises;
      EndsHeld(ps, was, answer) by { hide RecordsAt; }
      ReadBack(loaded, currentProcesses, Reports(ps, answer, |ps|));
    }

    lemma EndsHeld(ps: seq<Rec>, was: map<Process, Rec>, answer: nat -> Answer)
      requires RecordsAt(Held(), ps, was, answer, |ps|)
      ensures forall q :: q in Objs() ==> q in was && RecordAt(q.Value(), was[q], ps, answer, |ps|)
    {
      hide Evolve, Lost, RecordAt, Objects;
      forall q | q in Objs() ensures q in was && RecordAt(q.Value(), was[q], ps, answer, |ps|) {
        assert q in Held();
      }
    }

    /** The polling loop. */
    method PollEach(processes: seq<Process>, ghost at: seq<nat>, ghost ps: seq<Rec>, ghost was: map<Process, Rec>,
                    ghost loaded: seq<Process>, ghost before: seq<Node>, answer: nat -> Answer)
        returns (raised: bool)
      requires InPass(ps, was, loaded, before, answer, 0)
      requires |at| == |processes| && forall i, j :: 0 <= i < j < |at| ==> at[i] < at[j]
      requires forall k :: 0 <= k < |at| ==>
                 at[k] < |ps| && processes[k] == currentProcesses[at[k]] && ps[at[k]].status == Running
      requires forall i :: 0 <= i < |ps| && ps[i].status == Running ==> i in at
      modifies this`finishedNodes, this`failedNodes, this`failedProcesses, this`procs2bRescheduled, Objs()
      ensures raised <==> PassRaises(ps, answer, createdNodes, |ps|)
      ensures !raised ==> InPass(ps, was, loaded, before, answer, |ps|)
    {
      hide Evolve, Lost, Gone, AnyLost, RecordAt, FailuresAt, Count, Reports, InPass, PassRaises, Values, DistinctIds;
      hide Objects;
      raised := false;
      ghost var n := 0;
      for k := 0 to |processes|
        invariant n <= |ps| && n == if k == 0 then 0 else at[k - 1] + 1
        invariant InPass(ps, was, loaded, before, answer, n)
      {
        Gap(ps, at, k, n);
        Skip(ps, was, loaded, before, answer, n, at[k]);
        raised := PollNext(at[k], processes[k], answer, ps, was, loaded, before);
        if raised {
          RaisesLater(ps, answer, createdNodes, at[k] + 1);
          return;
        }
        n := at[k] + 1;
      }
      Gap(ps, at, |at|, n);
      Skip(ps, was, loaded, before, answer, n, |ps|);
    }

    /** The whole pass. It raises exactly when some poll does. Otherwise every record of every list has evolved as
      the polls in table order say, the reported processes are the new finished ones, the counter of failed
      processes is right, and the processes to reschedule and the failed nodes are collected exactly. */
    method Process(s: Settings, answer: nat -> Answer) returns (raised: bool)
      requires DistinctIds(Values(currentProcesses)) && FinishedAre(s.finishedNodes.GetOr([]), Values(currentProcesses))
      requires procs2bRescheduled == [] && failedProcesses == Count(Values(currentProcesses), Failed)
      modifies this`finishedNodes, this`failedNodes, this`failedProcesses, this`procs2bRescheduled, Objs()
      ensures raised <==> PassRaises(old(Values(currentProcesses)), answer, createdNodes, |currentProcesses|)
      ensures !raised ==>
                var ps, n := old(Values(currentProcesses)), |currentProcesses|;
                && (forall q :: q in Objs() ==> RecordAt(q.Value(), old(q.Value()), ps, answer, n))
                && Values(finishedNodes) == s.finishedNodes.GetOr([])
                    + Pick(Values(currentProcesses), Reports(ps, answer, n))
                && FailuresUpTo(ps, old(failedNodes), answer, n)
    {
      hide Evolve, Lost, Gone, AnyLost, RecordAt, FailuresAt, Count, Reports, FinishedAre, InPass, FailuresUpTo;
      hide PassRaises, Values, DistinctIds;
      ghost var ps, before, was := Values(currentProcesses), failedNodes, Held();
      var processes, at := RunningProcesses();
      finishedNodes := Load(s.finishedNodes.GetOr([]));
      ghost var loaded := finishedNodes;
      assert Held() == was;
      assert forall f :: f in loaded ==> f !in Objs();
      Begins(ps, s.finishedNodes.GetOr([]), answer);
      raised := PollEach(processes, at, ps, was, loaded, before, answer);
      if !raised {
        Ends(ps, was, loaded, s.finishedNodes.GetOr([]), before, answer);
      }
    }

    method NotReady(ps: seq<Process>) returns (r: seq<Process>)
      ensures |r| == |ps| - Count(Values(ps), Ready)
    {
      r := [];
      for i := 0 to |ps|
        invariant |r| == i - Count(Values(ps)[..i], Ready)
      {
        assert Values(ps)[..i + 1] == Values(ps)[..i] + [Values(ps)[i]];
        CountConcat(Values(ps)[..i], [Values(ps)[i]], Ready);
        if ps[i].status != Ready {
          r := r + [ps[i]];
        }
      }
      assert Values(ps)[..|ps|] == Values(ps);
    }

    method Output(s: Settings) returns (s': Settings)
      modifies this`finishedNodes
      ensures s' == Stored(s, old(Tables(Values(currentProcesses), Values(allProcesses), Values(executedProcs),
                                         Values(finishedNodes))),
                           failedProcesses, failedNodes, Values(procs2bRescheduled))
    {
      var executing := NotReady(currentProcesses);
      var working := |executing| - (|finishedNodes| + failedProcesses);
      s' := s.(runsLeft := Some(working), errorNodes := Some(working));
      if working == 0 {
        finishedNodes := [];
      }
      s' := s'.(finishedNodes := Some(Values(finishedNodes)), allProcesses := Some(Values(allProcesses)),
                currentProcesses := Some(Values(currentProcesses)), executedProcs := Some(Values(executedProcs)));
      if failedNodes != [] {
        s' := s'.(failedNodes := Some(failedNodes));
      }
      if procs2bRescheduled != [] {
        s' := s'.(scheduledStarted := Some(0), procs2bRescheduled := Some(Values(procs2bRescheduled)));
      }
    }

    /** What the lists hold after the pass, read as values. */
    lemma ResultOf(s: Settings, was: map<Process, Rec>, answer: nat -> Answer)
      requires WaitTriggered(s) && DistinctIds(s.currentProcesses.value)
      requires var ps := s.currentProcesses.value;
               && |currentProcesses| == |ps|
               && (forall k :: 0 <= k < |ps| ==> currentProcesses[k] in was && was[currentProcesses[k]] == ps[k])
               && |allProcesses| == |s.allProcesses.GetOr([])|
               && (forall k :: 0 <= k < |allProcesses| ==>
                   allProcesses[k] in was && was[allProcesses[k]] == s.allProcesses.GetOr([])[k])
               && |executedProcs| == |s.executedProcs.value|
               && (forall k :: 0 <= k < |executedProcs| ==>
                   executedProcs[k] in was && was[executedProcs[k]] == s.executedProcs.value[k])
               && (forall q :: q in was && q in Objs() ==> RecordAt(q.Value(), was[q], ps, answer, |ps|))
               && Values(finishedNodes) == s.finishedNodes.GetOr([])
                   + Pick(Values(currentProcesses), Reports(ps, answer, |ps|))
               && FailuresUpTo(ps, s.failedNodes.GetOr([]), answer, |ps|)
      requires createdNodes == s.createdNodes.GetOr([]) || createdNodes == []
      ensures PassResult(s, answer, Tables(Values(currentProcesses), Values(allProcesses), Values(executedProcs),
                                           Values(finishedNodes)),
                         failedNodes, Values(procs2bRescheduled))
      ensures failedProcesses == Count(Values(currentProcesses), Failed)
    {
      var ps, now := s.currentProcesses.value, Values(currentProcesses);
      InObjs();
      EvolvedAlike(now, ps, ps, answer);
      EvolvedAlike(Values(allProcesses), s.allProcesses.GetOr([]), ps, answer);
      EvolvedAlike(Values(executedProcs), s.executedProcs.value, ps, answer);
      if AnyLost(ps, answer, |ps|) {
        LostFails(ps, now, answer);
        SameIds(now, ps, answer);
        CollectedValues(currentProcesses, now, procs2bRescheduled);
      }
    }

    /** The pass and its output, once the trigger has loaded the lists. */
    method Finish(s: Settings, reliability: bool, answer: nat -> Answer, ghost e: Env)
        returns (raised: bool, s': Settings)
      requires WaitTriggered(s) && LoadedFrom(s, reliability) && DistinctIds(s.currentProcesses.value)
      requires FinishedAre(s.finishedNodes.GetOr([]), s.currentProcesses.value) && Answers(answer, e)
      modifies this, Objs()
      ensures raised ==> WaitRun(s, e).Raised?
      ensures !raised ==> PassStored(s, s', answer)
      ensures !raised ==> if WaitRun(s, e).Ok? then s' == WaitRun(s, e).s else s'.scheduledStarted == Some(0)
    {
      hide Evolve, EvolveAll, Reports, Lost, AnyLost, RecordAt, FailuresAt, Count, FinishedAre, PassStored, Stored;
      hide WaitRun, PassRaises, PassResult;
      InObjs();
      ghost var was := Held();
      s' := s;
      raised := Process(s, answer);
      if raised {
        RaisesOutcome(s, answer, e, createdNodes);
      } else {
        ResultOf(s, was, answer);
        StoresOutcome(s, answer, e, Tables(Values(currentProcesses), Values(allProcesses), Values(executedProcs),
                                           Values(finishedNodes)),
                      failedNodes, Values(procs2bRescheduled), createdNodes);
        s' := Output(s);
      }
    }

    /** The stage as the driver runs it. Without a failed poll it stores what the job's wait step says. With one it
      raises, or it writes the key no schema declares. In both cases the tables and numbers it writes are those
      of `PassStored`. */
    method Run(s: Settings, reliability: bool, answer: nat -> Answer, ghost e: Env)
        returns (triggered: bool, raised: bool, s': Settings)
      requires WaitTriggered(s) ==>
                 && DistinctIds(s.currentProcesses.value)
                 && FinishedAre(s.finishedNodes.GetOr([]), s.currentProcesses.value)
      requires Answers(answer, e)
      modifies this
      ensures triggered == WaitTriggered(s)
      ensures triggered && !raised ==> PassStored(s, s', answer)
      ensures triggered && WaitRun(s, e).Ok? ==> !raised && s' == WaitRun(s, e).s
      ensures triggered && WaitRun(s, e).Raised? && !raised ==> s'.scheduledStarted == Some(0)
    {
      hide EvolveAll, Count, FinishedAre, PassStored, WaitRun, DistinctIds, LoadedFrom;
      s', raised := s, false;
      triggered := IsTriggered(s, reliability);
      if triggered {
        InObjs();
        raised, s' := Finish(s, reliability, answer, e);
      }
    }
  }
}

/** A reschedule round: the failed processes are handed out again, their nodes are polled until all have confirmed,
  and confirmed processes may be launched in between. */
module RescheduleRound {
  import opened Records
  import opened Scheduler
  import opened JobState
  import opened TableLemmas
  import opened JobInvariant

  // ---------------------------------------------------------------------------------------------------------
  // Handing out

  /** The round robin hands out every listed process once, first in first out, each waiting for its node. */
  lemma {:induction false} ReassignIds(nodes: seq<Node>, perNode: nat, remaining: nat, failed: seq<Rec>, retry: int)
    requires Fits(|nodes|, perNode, remaining, |failed|)
    ensures var ps := Reassign(nodes, perNode, remaining, failed, retry);
            && |ps| == |failed|
            && forall i :: 0 <= i < |ps| ==>
                ps[i].id == failed[i].id && ps[i].status == RescheduleReady && ps[i].retry == retry
    decreases |nodes|
  {
    if nodes != [] {
      FitsNext(|nodes|, perNode, remaining, |failed|);
      var k := Load(perNode, remaining);
      ReassignIds(nodes[1..], perNode, if remaining > 0 then remaining - 1 else 0, failed[k..], retry);
    }
  }

  /** Record `i` of a reassignment is on the node at its place. */
  lemma {:induction false} ReassignAt(nodes: seq<Node>, perNode: nat, remaining: nat, failed: seq<Rec>, retry: int,
                          i: nat)
    requires Fits(|nodes|, perNode, remaining, |failed|) && perNode > 0 && i < |failed|
    ensures var ps, slot := Reassign(nodes, perNode, remaining, failed, retry), Slot(i, perNode, remaining);
            && |ps| == |failed| && slot < |nodes| && ps[i] == Rec(failed[i].id, nodes[slot].ip, RescheduleReady, retry)
    decreases |nodes|
  {
    if nodes != [] {
      var k, rest := Load(perNode, remaining), if remaining > 0 then remaining - 1 else 0;
      ReassignIds(nodes, perNode, remaining, failed, retry);
      SlotNext(i, perNode, remaining);
      FitsNext(|nodes|, perNode, remaining, |failed|);
      hide Slot, Fits;
      if i >= k {
        ReassignAt(nodes[1..], perNode, rest, failed[k..], retry, i - k);
      }
    }
  }

  /** Which of the listed processes goes to which node, with `q` and `r` the quotient and the remainder of their
    number by the nodes used: the first `r` nodes take `q + 1` of them each, in order, and the other nodes `q` each. */
  lemma HandedOutAt(nodes: seq<Node>, failed: seq<Rec>, retry: int, i: nat)
    requires nodes != [] && i < |failed|
    ensures var u := if |nodes| < |failed| then |nodes| else |failed|;
            var q, r := |failed| / u, |failed| % u;
            && q > 0
            && var slot := if i < r * (q + 1) then i / (q + 1) else r + (i - r * (q + 1)) / q;
               && 0 <= slot < u && |RoundRobinReassign(nodes, failed, retry)| == |failed|
               && RoundRobinReassign(nodes, failed, retry)[i]
                  == Rec(failed[i].id, nodes[slot].ip, RescheduleReady, retry)
  {
    var u := Used(nodes, |failed|);
    QuotientAtLeastOne(|failed|, u);
    FitsStart(u, |failed|);
    hide Reassign;
    ReassignAt(nodes[..u], |failed| / u, |failed| % u, failed, retry, i);
  }

  /** A rescheduled process goes where a first schedule of as many processes would put one: so the round robin of a
    reschedule is as fair as that of a schedule. */
  lemma HandedOut(nodes: seq<Node>, failed: seq<Rec>, retry: int)
    requires nodes != [] && failed != []
    ensures var ps := RoundRobinReassign(nodes, failed, retry);
            && |ps| == |failed|
            && (forall i :: 0 <= i < |ps| ==>
                ps[i].id == failed[i].id && ps[i].status == RescheduleReady && ps[i].retry == retry)
            && |RoundRobin(nodes, |failed|, 0, retry)| == |failed|
            && (forall i :: 0 <= i < |ps| ==> ps[i].ip == RoundRobin(nodes, |failed|, 0, retry)[i].ip)
  {
    RoundRobinIds(nodes, |failed|, 0, retry);
    HandedOutAt(nodes, failed, retry, 0);
    hide RoundRobin, RoundRobinReassign;
    forall i | 0 <= i < |failed|
      ensures RoundRobinReassign(nodes, failed, retry)[i].id == failed[i].id
      ensures RoundRobinReassign(nodes, failed, retry)[i].status == RescheduleReady
      ensures RoundRobinReassign(nodes, failed, retry)[i].retry == retry
      ensures RoundRobinReassign(nodes, failed, retry)[i].ip == RoundRobin(nodes, |failed|, 0, retry)[i].ip
    {
      HandedOutAt(nodes, failed, retry, i);
      RoundRobinAt(nodes, |failed|, 0, retry, i);
    }
  }

  // ---------------------------------------------------------------------------------------------------------
  // The round as a machine

  /** What can happen during a round: the nodes are polled, or confirmed processes are launched. */
  datatype Move = Poll(answers: set<string>) | Launch(launched: set<nat>)

  function Apply(nodes: seq<Node>, r: Round, m: Move): Round {
    match m
    case Poll(answers) => PollRound(nodes, answers, r)
    case Launch(launched) =>
      r.(current := LaunchCurrent(r.current, launched), all := LaunchAll(r.current, launched, r.all))
  }

  function ApplyAll(nodes: seq<Node>, r: Round, ms: seq<Move>): Round {
    if ms == [] then r else Apply(nodes, ApplyAll(nodes, r, ms[..|ms| - 1]), ms[|ms| - 1])
  }

  ghost predicate Settled(ps: seq<Rec>) {
    forall i :: 0 <= i < |ps| ==> ps[i].status != Ready && ps[i].status != RescheduleReady
  }

  /** The records the round added to the two tables: same process, same node, and a status in the history that
    never falls behind. A waiting process may already be ready in the history, since the first confirmed node makes
    all of them ready there. */
  predicate Twins(c: Rec, a: Rec) {
    && c.id == a.id && c.ip == a.ip
    && (c.status == a.status || (c.status == RescheduleReady && a.status == Ready))
    && c.status in {RescheduleReady, Ready, Running}
  }

  ghost predicate TwinTables(c: seq<Rec>, a: seq<Rec>) {
    |c| == |a| && forall k :: 0 <= k < |c| ==> Twins(c[k], a[k])
  }

  /** What every move keeps. `current` and `all` are the tables before the round. */
  ghost predicate RoundInv(r: Round, current: seq<Rec>, all: seq<Rec>, failed: seq<Rec>) {
    && |r.current| == |current| + |failed| && r.current[..|current|] == current
    && |r.all| == |all| + |failed| && r.all[..|all|] == all
    && TwinTables(r.current[|current|..], r.all[|all|..])
    && Ids(r.current[|current|..]) == Ids(failed)
    && r.total + Count(r.current, RescheduleReady) == |failed|
  }

  lemma {:induction false} FilterAll(ps: seq<Rec>, st: Status)
    requires AllStatus(ps, st)
    ensures Filter(ps, st) == ps
  {
    if ps != [] {
      FilterAll(ps[1..], st);
    }
  }

  lemma {:induction false} FilterNone(ps: seq<Rec>, qs: seq<Rec>, st: Status)
    requires forall i :: 0 <= i < |ps| ==> ps[i].status != st
    ensures Filter(ps + qs, st) == Filter(qs, st)
  {
    if ps == [] {
      assert ps + qs == qs;
    } else {
      assert (ps + qs)[1..] == ps[1..] + qs;
      FilterNone(ps[1..], qs, st);
    }
  }

  lemma RoundStarts(nodes: seq<Node>, failed: seq<Rec>, current: seq<Rec>, all: seq<Rec>, confirmed: seq<Node>,
                    retry: int)
    requires nodes != [] && failed != [] && Settled(current) && Settled(all)
    ensures RoundInv(StartRound(nodes, failed, current, all, confirmed, 0, retry), current, all, failed)
  {
    var r := StartRound(nodes, failed, current, all, confirmed, 0, retry);
    var ps := RoundRobinReassign(nodes, failed, retry);
    HandedOut(nodes, failed, retry);
    FilterNone(current, ps, RescheduleReady);
    FilterAll(ps, RescheduleReady);
    CountConcat(current, ps, RescheduleReady);
    CountZero(current, RescheduleReady);
    CountFull(ps, RescheduleReady);
    assert r.current[|current|..] == ps && r.all[|all|..] == ps;
  }

  lemma {:induction false} ReadyOnCounts(ps: seq<Rec>, ip: string)
    ensures Count(ReadyOn(ps, ip), RescheduleReady) + CountWaiting(ps, ip) == Count(ps, RescheduleReady)
  {
    if ps != [] {
      assert ReadyOn(ps, ip)[1..] == ReadyOn(ps[1..], ip);
      ReadyOnCounts(ps[1..], ip);
    }
  }

  lemma ConfirmKeepsRound(r: Round, n: Node, current: seq<Rec>, all: seq<Rec>, failed: seq<Rec>)
    requires RoundInv(r, current, all, failed) && Settled(current) && Settled(all)
    ensures RoundInv(ConfirmInRound(r, n), current, all, failed)
  {
    var r' := ConfirmInRound(r, n);
    ReadyOnCounts(r.current, n.ip);
    assert r'.current[..|current|] == ReadyOn(r.current[..|current|], n.ip);
    assert r'.all[..|all|] == ReadyEverywhere(r.all[..|all|]);
    hide Count, CountWaiting;
    forall k | 0 <= k < |failed| ensures Twins(r'.current[|current|..][k], r'.all[|all|..][k]) {
      assert Twins(r.current[|current|..][k], r.all[|all|..][k]);
    }
  }

  /** A node with the address was confirmed in between. */
  ghost predicate Newly(before: seq<Node>, after: seq<Node>, ip: string) {
    exists j :: |before| <= j < |after| && after[j].ip == ip
  }

  /** What becomes of a record of the current table: it is ready if it waited and its node was confirmed. */
  function ReadyIf(p: Rec, confirmed: bool): Rec {
    if p.status == RescheduleReady && confirmed then p.(status := Ready) else p
  }

  lemma NewlyStep(c: seq<Node>, n: Node, after: seq<Node>, ip: string)
    requires c + [n] <= after
    ensures Newly(c, after, ip) <==> n.ip == ip || Newly(c + [n], after, ip)
  {
    assert after[|c|] == n;
  }

  /** One poll in terms of the nodes it confirms: in the current table the waiting records on them become ready, in the
    history every waiting record does as soon as there is one; the total grows by the records that became ready. */
  lemma {:induction false} PollRoundExact(nodes: seq<Node>, answers: set<string>, r: Round)
    ensures var r' := PollRound(nodes, answers, r);
            && r'.confirmed == Confirm(nodes, answers, r.confirmed) && r.confirmed <= r'.confirmed
            && |r'.current| == |r.current| && |r'.all| == |r.all|
            && (forall k :: 0 <= k < |r.current| ==>
                  r'.current[k] == ReadyIf(r.current[k], Newly(r.confirmed, r'.confirmed, r.current[k].ip)))
            && (forall k :: 0 <= k < |r.all| ==> r'.all[k] == ReadyIf(r.all[k], r'.confirmed != r.confirmed))
            && r'.total == r.total + Count(r.current, RescheduleReady) - Count(r'.current, RescheduleReady)
    decreases |nodes|
  {
    if nodes != [] {
      var next, r' := PollOne(r, nodes[0], answers), PollRound(nodes, answers, r);
      PollRoundExact(nodes[1..], answers, next);
      ReadyOnCounts(r.current, nodes[0].ip);
      hide Count, CountWaiting, Newly;
      if IsNew(nodes[0], answers, r.confirmed) {
        var n := Node(nodes[0].nid, nodes[0].ip, nodes[0].region, NodeRunning);
        forall k | 0 <= k < |r.current|
          ensures r'.current[k] == ReadyIf(r.current[k], Newly(r.confirmed, r'.confirmed, r.current[k].ip))
        {
          NewlyStep(r.confirmed, n, r'.confirmed, r.current[k].ip);
        }
      }
    } else {
      assert forall k :: 0 <= k < |r.current| ==> !Newly(r.confirmed, r.confirmed, r.current[k].ip);
    }
  }

  lemma {:induction false} PollKeepsRound(nodes: seq<Node>, answers: set<string>, r: Round, current: seq<Rec>,
                          all: seq<Rec>, failed: seq<Rec>)
    requires RoundInv(r, current, all, failed) && Settled(current) && Settled(all)
    ensures RoundInv(PollRound(nodes, answers, r), current, all, failed)
    decreases |nodes|
  {
    if nodes != [] {
      hide RoundInv, ConfirmInRound;
      if IsNew(nodes[0], answers, r.confirmed) {
        ConfirmKeepsRound(r, nodes[0], current, all, failed);
      }
      PollKeepsRound(nodes[1..], answers, PollOne(r, nodes[0], answers), current, all, failed);
    }
  }

  /** Launching in the history what is launched in the current table. */
  function LaunchTwin(c: seq<Rec>, a: seq<Rec>, launched: set<nat>): (r: seq<Rec>)
    requires |c| == |a|
    ensures |r| == |a|
    ensures forall k :: 0 <= k < |a| ==>
              r[k] == if c[k].status == Ready && c[k].id in launched then a[k].(status := Running) else a[k]
  {
    seq(|a|, k requires 0 <= k < |a| =>
      if c[k].status == Ready && c[k].id in launched then a[k].(status := Running) else a[k])
  }

  lemma TwinClash(pre: seq<Rec>, c: seq<Rec>, a: seq<Rec>, x: Rec)
    requires c != [] && TwinTables(c, a) && DistinctIds(c) && NoReadyClash(pre, c) && x.id == c[0].id
    ensures TwinTables(c[1..], a[1..]) && DistinctIds(c[1..]) && NoReadyClash(pre + [x], c[1..])
    ensures forall i :: 0 <= i < |pre| ==> !(pre[i].id == c[0].id && pre[i].status == Ready)
  {
    forall i, j | 0 <= i < |pre + [x]| && 0 <= j < |c[1..]|
      ensures !((pre + [x])[i].id == c[1..][j].id && (pre + [x])[i].status == Ready)
    {
      assert c[1..][j] == c[j + 1];
    }
  }

  lemma LaunchFirst(pre: seq<Rec>, c: seq<Rec>, a: Rec, rest: seq<Rec>, launched: set<nat>)
    requires c != [] && Twins(c[0], a)
    requires forall i :: 0 <= i < |pre| ==> !(pre[i].id == c[0].id && pre[i].status == Ready)
    ensures var x := if c[0].status == Ready && c[0].id in launched then a.(status := Running) else a;
            LaunchAll(c, launched, pre + ([a] + rest)) == LaunchAll(c[1..], launched, pre + ([x] + rest))
  {
    if c[0].status == Ready && c[0].id in launched {
      MarkLaunchedAt(pre, a, rest);
    }
  }

  /** A launch keeps twins together although the history runs ahead. */
  lemma {:induction false} LaunchAllTwins(pre: seq<Rec>, c: seq<Rec>, a: seq<Rec>, launched: set<nat>)
    requires TwinTables(c, a) && DistinctIds(c) && NoReadyClash(pre, c)
    ensures LaunchAll(c, launched, pre + a) == pre + LaunchTwin(c, a, launched)
    decreases |c|
  {
    if c == [] {
      assert pre + a == pre && pre + LaunchTwin(c, a, launched) == pre;
    } else {
      var go := c[0].status == Ready && c[0].id in launched;
      var x := if go then a[0].(status := Running) else a[0];
      TwinClash(pre, c, a, x);
      assert LaunchTwin(c, a, launched) == [x] + LaunchTwin(c[1..], a[1..], launched);
      assert Twins(c[0], a[0]);
      LaunchFirst(pre, c, a[0], a[1..], launched);
      hide LaunchTwin, NoReadyClash, DistinctIds, TwinTables, LaunchAll, Twins;
      assert a == [a[0]] + a[1..];
      Assoc(pre, [x], a[1..]);
      LaunchAllTwins(pre + [x], c[1..], a[1..], launched);
      Assoc(pre, [x], LaunchTwin(c[1..], a[1..], launched));
    }
  }

  lemma {:induction false} LaunchAllSkips(ps: seq<Rec>, qs: seq<Rec>, launched: set<nat>, all: seq<Rec>)
    requires Settled(ps)
    ensures LaunchAll(ps + qs, launched, all) == LaunchAll(qs, launched, all)
  {
    if ps == [] {
      assert ps + qs == qs;
    } else {
      assert (ps + qs)[1..] == ps[1..] + qs;
      LaunchAllSkips(ps[1..], qs, launched, all);
    }
  }

  lemma LaunchWaiting(ps: seq<Rec>, launched: set<nat>)
    ensures Count(LaunchCurrent(ps, launched), RescheduleReady) == Count(ps, RescheduleReady)
  {
    if ps != [] {
      LaunchCurrentStep(ps, launched);
      assert LaunchCurrent(ps, launched)[1..] == LaunchCurrent(ps[1..], launched);
      LaunchWaiting(ps[1..], launched);
    }
  }

  lemma LaunchKeepsRound(launched: set<nat>, r: Round, current: seq<Rec>, all: seq<Rec>, failed: seq<Rec>)
    requires RoundInv(r, current, all, failed) && Settled(current) && Settled(all) && DistinctIds(failed)
    ensures RoundInv(Apply([], r, Launch(launched)), current, all, failed)
  {
    var c, a := r.current[|current|..], r.all[|all|..];
    assert r.current == current + c && r.all == all + a;
    LaunchAllSkips(current, c, launched, r.all);
    assert DistinctIds(c) by {
      forall i, j | 0 <= i < j < |c| ensures c[i].id != c[j].id {
        assert Ids(c)[i] == failed[i].id && Ids(c)[j] == failed[j].id;
      }
    }
    LaunchAllTwins(all, c, a, launched);
    LaunchWaiting(r.current, launched);
    var r' := Apply([], r, Launch(launched));
    LaunchedTwins(c, a, launched);
    assert r'.current == current + LaunchCurrent(c, launched);
    assert r'.all == all + LaunchTwin(c, a, launched);
    assert r'.current[|current|..] == LaunchCurrent(c, launched) && r'.all[|all|..] == LaunchTwin(c, a, launched);
    assert r'.current[..|current|] == current && r'.all[..|all|] == all;
  }

  lemma LaunchedTwins(c: seq<Rec>, a: seq<Rec>, launched: set<nat>)
    requires TwinTables(c, a)
    ensures TwinTables(LaunchCurrent(c, launched), LaunchTwin(c, a, launched))
    ensures Ids(LaunchCurrent(c, launched)) == Ids(c)
  {
  }

  /** Conservation over any sequence of polls and launches: what is confirmed and what still waits add up to the
    list that was handed out, and the two tables keep their shape. */
  lemma {:induction false} RoundKeeps(nodes: seq<Node>, ms: seq<Move>, r: Round, current: seq<Rec>, all: seq<Rec>,
                          failed: seq<Rec>)
    requires RoundInv(r, current, all, failed) && Settled(current) && Settled(all) && DistinctIds(failed)
    ensures RoundInv(ApplyAll(nodes, r, ms), current, all, failed)
  {
    if ms != [] {
      hide RoundInv;
      var before := ApplyAll(nodes, r, ms[..|ms| - 1]);
      RoundKeeps(nodes, ms[..|ms| - 1], r, current, all, failed);
      match ms[|ms| - 1]
      case Poll(answers) => PollKeepsRound(nodes, answers, before, current, all, failed);
      case Launch(launched) => LaunchKeepsRound(launched, before, current, all, failed);
    }
  }

  /** At every point of a round the confirmed and the waiting processes add up to the list handed out; old records
    are untouched; the new ones carry the listed ids, each once and in order, in both tables. The round is over
    exactly when no process waits any more, and then the new records have equal status in both tables. */
  ghost predicate RoundResult(r: Round, current: seq<Rec>, all: seq<Rec>, failed: seq<Rec>) {
    && |r.current| == |current| + |failed| && |r.all| == |all| + |failed|
    && r.current[..|current|] == current && r.all[..|all|] == all
    && r.total + Count(r.current, RescheduleReady) == |failed|
    && (r.total == |failed| <==> forall p :: p in r.current ==> p.status != RescheduleReady)
    && var c, a := r.current[|current|..], r.all[|all|..];
       && Ids(c) == Ids(failed) && Ids(a) == Ids(failed)
       && (r.total == |failed| ==> forall k :: 0 <= k < |c| ==> c[k].status == a[k].status)
  }

  lemma RoundInvResult(r: Round, current: seq<Rec>, all: seq<Rec>, failed: seq<Rec>)
    requires RoundInv(r, current, all, failed)
    ensures RoundResult(r, current, all, failed)
  {
    CountZero(r.current, RescheduleReady);
    hide Count;
    var c, a := r.current[|current|..], r.all[|all|..];
    forall k | 0 <= k < |c|
      ensures Ids(c)[k] == Ids(a)[k] && (r.total == |failed| ==> c[k].status == a[k].status)
    {
      assert Twins(c[k], a[k]);
      assert c[k] in r.current;
    }
    assert Ids(c) == Ids(a);
  }

  lemma RoundTheorem(nodes: seq<Node>, failed: seq<Rec>, current: seq<Rec>, all: seq<Rec>, confirmed: seq<Node>,
                     retry: int, ms: seq<Move>)
    requires nodes != [] && failed != [] && DistinctIds(failed) && Settled(current) && Settled(all)
    ensures RoundResult(ApplyAll(nodes, StartRound(nodes, failed, current, all, confirmed, 0, retry), ms), current, all,
                        failed)
  {
    var r0 := StartRound(nodes, failed, current, all, confirmed, 0, retry);
    RoundStarts(nodes, failed, current, all, confirmed, retry);
    RoundKeeps(nodes, ms, r0, current, all, failed);
    RoundInvResult(ApplyAll(nodes, r0, ms), current, all, failed);
  }

  // ---------------------------------------------------------------------------------------------------------
  // The round in the job's settings

  function RoundOf(s: Settings): Round {
    Round(s.rescheduledNodes.GetOr([]), s.currentProcesses.GetOr([]), s.allProcesses.GetOr([]),
          s.totalRescheduledProcs.GetOr(0))
  }

  /** The stages before schedule are done. */
  ghost predicate SetUp(s: Settings) {
    && s.configureDone == Some(1) && s.createDone == Some(1)
    && s.createdNodes.Some? && RunningNodes(s.createdNodes.value) != []
    && IsSet(s.bootstrapDone)
    && s.bootstrappedNodes.Some? && |s.bootstrappedNodes.value| >= |RunningNodes(s.createdNodes.value)|
  }

  /** A job in the middle of a round: the first schedule of the iteration stays marked complete. */
  ghost predicate MidRound(s: Settings, current: seq<Rec>, all: seq<Rec>) {
    && SetUp(s) && s.scheduleStarted == Some(1) && s.scheduleCompleted == Some(1)
    && s.currentProcesses.Some? && s.allProcesses.Some? && s.executedProcs.Some?
    && s.procs2bRescheduled.GetOr([]) != []
    && !IsSet(s.transformed) && !IsSet(s.converged) && s.runFinished.None?
    && Settled(current) && Settled(all)
    && RoundInv(RoundOf(s), current, all, s.procs2bRescheduled.GetOr([]))
    && s.totalRescheduledProcs.GetOr(0) < |s.procs2bRescheduled.value|
  }

  /** A completion poll in the middle of a round resets it exactly when it leaves no process waiting; otherwise the
    round goes on. */
  lemma RoundResets(job: Job, s: Settings, e: Env, current: seq<Rec>, all: seq<Rec>)
    requires MidRound(s, current, all)
    ensures ScheduleTriggered(s) && ScheduleRun(job, s, e) == Ok(CompleteRescheduleRun(s, e))
    ensures var s' := CompleteRescheduleRun(s, e);
            && RoundInv(PollRound(s.bootstrappedNodes.value, e.scheduled, RoundOf(s)), current, all,
                        s.procs2bRescheduled.value)
            && (Count(s'.currentProcesses.value, RescheduleReady) == 0 <==>
                  && s'.procs2bRescheduled == Some([]) && s'.totalRescheduledProcs == Some(0)
                  && s'.rescheduledNodes == Some([]))
            && (Count(s'.currentProcesses.value, RescheduleReady) > 0 ==> MidRound(s', current, all))
  {
    PollKeepsRound(s.bootstrappedNodes.value, e.scheduled, RoundOf(s), current, all, s.procs2bRescheduled.value);
    hide PollRound, Settled, Count;
    var r := PollRound(s.bootstrappedNodes.value, e.scheduled, RoundOf(s));
    assert CompleteRescheduleRun(s, e).currentProcesses.value == r.current;
  }

  /** In the middle of a round the schedule stage is triggered, and the execute stage as well as soon as a
    confirmed process is ready: here, unlike in all states a run of the driver reaches, the trigger is unique if and
    only if no process is ready. */
  lemma MidRoundTriggers(s: Settings, current: seq<Rec>, all: seq<Rec>, st: Stage)
    requires MidRound(s, current, all)
    ensures Triggered(st, s) <==> st == Schedule || (st == Execute && Count(s.currentProcesses.value, Ready) != 0)
  {
    assert |s.currentProcesses.value| > 0;
    hide RoundInv, Settled, Count;
  }

  // ---------------------------------------------------------------------------------------------------------
  // The round in the steps of the stages

  /** A job with processes to reschedule whose tables are settled: what a round starts from. */
  ghost predicate RoundDue(s: Settings) {
    && SetUp(s) && !IsSet(s.scheduleStarted) && s.scheduleCompleted == Some(1) && s.executedProcs.Some?
    && !IsSet(s.transformed) && !IsSet(s.converged) && s.runFinished.None?
    && s.totalRescheduledProcs.GetOr(0) == 0
    && s.procs2bRescheduled.GetOr([]) != [] && DistinctIds(s.procs2bRescheduled.value)
    && Settled(s.currentProcesses.GetOr([])) && Settled(s.allProcesses.GetOr([]))
    && Count(s.currentProcesses.GetOr([]), Failed) > 0
  }

  /** Then schedule is the only stage of the two that is triggered, and its step enters the round. */
  lemma RoundEnters(job: Job, s: Settings, e: Env)
    requires RoundDue(s)
    ensures ScheduleTriggered(s) && !ExecuteTriggered(s)
    ensures ScheduleRun(job, s, e) == Ok(StartRescheduleRun(job, s))
    ensures MidRound(StartRescheduleRun(job, s), s.currentProcesses.GetOr([]), s.allProcesses.GetOr([]))
    ensures StartRescheduleRun(job, s).procs2bRescheduled == s.procs2bRescheduled
  {
    var nodes, failed := s.bootstrappedNodes.value, s.procs2bRescheduled.value;
    var current, all := s.currentProcesses.GetOr([]), s.allProcesses.GetOr([]);
    CountZero(current, Ready);
    RoundStarts(nodes, failed, current, all, [], job.maximumRetry);
    hide Settled, Count, TwinTables;
    var r := StartRound(nodes, failed, current, all, [], 0, job.maximumRetry);
    assert RoundOf(StartRescheduleRun(job, s)) == r.(confirmed := s.rescheduledNodes.GetOr([]));
  }

  /** An execute step in the middle of a round does not raise, since the old failed records switch the uploads off,
    and it is the launch move of the round. */
  lemma ExecuteInRound(job: Job, s: Settings, e: Env, current: seq<Rec>, all: seq<Rec>)
    requires MidRound(s, current, all) && ExecuteTriggered(s)
    requires Count(current, Failed) > 0 && DistinctIds(s.procs2bRescheduled.value)
    ensures ExecuteRun(job, s, e).Ok?
    ensures RoundOf(ExecuteRun(job, s, e).s) == Apply([], RoundOf(s), Launch(e.launched))
    ensures MidRound(ExecuteRun(job, s, e).s, current, all)
    ensures var s' := ExecuteRun(job, s, e).s;
            s' == s.(currentProcesses := s'.currentProcesses, allProcesses := s'.allProcesses,
                     executedProcs := s'.executedProcs, initialNumbfile := Some(s.initialNumbfile.GetOr(1)),
                     runsLeft := Some(Count(s'.currentProcesses.value, Running)))
  {
    var ps := s.currentProcesses.value;
    assert ps == current + ps[|current|..];
    CountConcat(current, ps[|current|..], Failed);
    LaunchKeepsRound(e.launched, RoundOf(s), current, all, s.procs2bRescheduled.value);
    hide RoundInv, Settled, Count, CountersMatch;
  }

  /** The round is over: the list is cleared, and with its length as the total the tables are those of the theorem. */
  ghost predicate RoundDone(s: Settings, current: seq<Rec>, all: seq<Rec>, failed: seq<Rec>) {
    && s.procs2bRescheduled == Some([]) && s.totalRescheduledProcs == Some(0) && s.rescheduledNodes == Some([])
    && s.scheduleCompleted == Some(1) && s.currentProcesses.Some? && s.allProcesses.Some?
    && RoundResult(Round([], s.currentProcesses.value, s.allProcesses.value, |failed|), current, all, failed)
  }

  /** A schedule step in the middle of a round keeps it going or ends it. */
  lemma ScheduleInRound(job: Job, s: Settings, e: Env, current: seq<Rec>, all: seq<Rec>)
    requires MidRound(s, current, all)
    ensures ScheduleTriggered(s) && ScheduleRun(job, s, e).Ok?
    ensures var s' := ScheduleRun(job, s, e).s;
            || (MidRound(s', current, all) && s'.procs2bRescheduled == s.procs2bRescheduled)
            || RoundDone(s', current, all, s.procs2bRescheduled.value)
  {
    RoundResets(job, s, e, current, all);
    var failed := s.procs2bRescheduled.value;
    var r := PollRound(s.bootstrappedNodes.value, e.scheduled, RoundOf(s));
    RoundInvResult(r, current, all, failed);
    hide PollRound, Settled, Count, MidRound, Twins, RoundInv;
    assert RoundResult(r, current, all, failed) ==> RoundResult(r.(confirmed := []), current, all, failed);
  }

  datatype Step = Step(st: Stage, e: Env)

  /** Settings that follow each other by steps of the schedule and the execute stage. */
  ghost predicate RoundSteps(job: Job, ss: seq<Settings>, steps: seq<Step>) {
    && |ss| == |steps| + 1
    && forall i :: 0 <= i < |steps| ==>
         && steps[i].st in {Schedule, Execute} && Triggered(steps[i].st, ss[i])
         && Run(job, steps[i].st, ss[i], steps[i].e) == Ok(ss[i + 1])
  }

  /** From settings a round is due in, through any sequence of schedule and execute steps: as long as the list is not
    cleared the job is in the middle of the round, with the list and the old records untouched and confirmed plus
    waiting the length of the list; and what clears it is the end of the round. */
  lemma {:induction false} RoundOverSteps(job: Job, ss: seq<Settings>, steps: seq<Step>, k: nat)
    requires RoundSteps(job, ss, steps) && RoundDue(ss[0]) && 0 < k < |ss|
    requires forall i :: 0 <= i < k ==> ss[i].procs2bRescheduled.GetOr([]) != []
    ensures var current, all, failed :=
              ss[0].currentProcesses.GetOr([]), ss[0].allProcesses.GetOr([]), ss[0].procs2bRescheduled.value;
            || (MidRound(ss[k], current, all) && ss[k].procs2bRescheduled == Some(failed))
            || RoundDone(ss[k], current, all, failed)
  {
    var current, all, failed :=
      ss[0].currentProcesses.GetOr([]), ss[0].allProcesses.GetOr([]), ss[0].procs2bRescheduled.value;
    var s, step := ss[k - 1], steps[k - 1];
    if k == 1 {
      RoundEnters(job, s, step.e);
    } else {
      RoundOverSteps(job, ss, steps, k - 1);
      assert MidRound(s, current, all);
      if step.st == Schedule {
        ScheduleInRound(job, s, step.e, current, all);
      } else {
        ExecuteInRound(job, s, step.e, current, all);
      }
    }
    hide MidRound, RoundDone, ScheduleRun, ExecuteRun;
  }

  // ---------------------------------------------------------------------------------------------------------
  // The order of the stages in a round

  ghost predicate OrderFree(job: Job, s: Settings) {
    forall e, o, o' :: Complete(o) && Complete(o') ==>
                         Drive(job, Ctx(s, false), e, o) == Drive(job, Ctx(s, false), e, o')
  }

  lemma {:induction false} DriveSchedules(job: Job, s: Settings, e: Env, current: seq<Rec>, all: seq<Rec>,
                          order: seq<Stage>)
    requires MidRound(s, current, all) && Count(s.currentProcesses.value, Ready) == 0 && Schedule in order
    ensures DriveFrom(job, s, s, e, order)
         == if e.raises then Ctx(s, true) else Ctx(CompleteRescheduleRun(s, e), false)
  {
    RoundResets(job, s, e, current, all);
    MidRoundTriggers(s, current, all, order[0]);
    hide MidRound, ScheduleTriggered, ExecuteTriggered, CompleteRescheduleRun;
    if Schedule in order[1..] {
      DriveSchedules(job, s, e, current, all, order[1..]);
    } else if e.raises {
      NothingDrives(job, s, e, current, all, order[1..]);
    }
  }

  lemma {:induction false} NothingDrives(job: Job, s: Settings, e: Env, current: seq<Rec>, all: seq<Rec>,
                          order: seq<Stage>)
    requires MidRound(s, current, all) && e.raises
    ensures DriveFrom(job, s, s, e, order) == Ctx(s, true)
  {
    if order != [] {
      NothingDrives(job, s, e, current, all, order[1..]);
    }
  }

  lemma {:induction false} NobodyAnswers(nodes: seq<Node>, r: Round)
    ensures PollRound(nodes, {}, r) == r
  {
    if nodes != [] {
      NobodyAnswers(nodes[1..], r);
    }
  }

  const REST: seq<Stage> := [Configure, Create, Bootstrap, Wait, Transform, Converge, Destroy]

  const ORDER: seq<Stage> := [Schedule, Execute] + REST

  lemma CompleteOrders(a: Stage, b: Stage)
    requires {a, b} == {Schedule, Execute}
    ensures Complete([a, b] + REST)
  {
    forall st: Stage ensures st in [a, b] + REST {
      assert st == a || st == b ==> st in [a, b];
      assert REST[0] == Configure && REST[1] == Create && REST[2] == Bootstrap && REST[3] == Wait;
      assert REST[4] == Transform && REST[5] == Converge && REST[6] == Destroy;
      assert st in [a, b] || st in REST;
    }
  }

  lemma OrderComplete()
    ensures Complete(ORDER)
  {
    CompleteOrders(Schedule, Execute);
  }

  /** Nobody answers, and one process launches. */
  function OneLaunches(id: nat): Env {
    Env(false, [], {}, {}, [], 0, {id}, {}, {}, EMPTY, {}, false)
  }

  lemma FirstTriggered(job: Job, s: Settings, e: Env, first: Stage, order: seq<Stage>)
    requires Triggered(first, s) && Run(job, first, s, e).Ok? && order != [] && order[0] == first
    ensures Drive(job, Ctx(s, false), e, order) == Ctx(Run(job, first, s, e).s, false)
  {
  }

  /** With a ready process two orders of the stages lead to different settings: when nobody answers and that process
    launches, schedule first leaves the current table alone, and execute first changes it. */
  lemma OrdersDiffer(job: Job, s: Settings, current: seq<Rec>, all: seq<Rec>, i: nat)
    requires MidRound(s, current, all) && (!job.inputs || Count(s.currentProcesses.value, Failed) > 0)
    requires i < |s.currentProcesses.value| && s.currentProcesses.value[i].status == Ready
    ensures var e := OneLaunches(s.currentProcesses.value[i].id);
            Drive(job, Ctx(s, false), e, [Schedule, Execute] + REST)
                != Drive(job, Ctx(s, false), e, [Execute, Schedule] + REST)
  {
    var e := OneLaunches(s.currentProcesses.value[i].id);
    CountZero(s.currentProcesses.value, Ready);
    MidRoundTriggers(s, current, all, Schedule);
    MidRoundTriggers(s, current, all, Execute);
    RoundResets(job, s, e, current, all);
    NobodyAnswers(s.bootstrappedNodes.value, RoundOf(s));
    assert CompleteRescheduleRun(s, e).currentProcesses == s.currentProcesses;
    hide MidRound, CompleteRescheduleRun, ScheduleRun, ScheduleTriggered;
    FirstTriggered(job, s, e, Schedule, [Schedule, Execute] + REST);
    assert ExecuteRun(job, s, e).Ok? && ExecuteRun(job, s, e).s.currentProcesses.value[i].status == Running;
    FirstTriggered(job, s, e, Execute, [Execute, Schedule] + REST);
  }

  /** In the middle of a round the order in which the store lists the stages is irrelevant if and only if no process
    is ready, at least where an execute step does not raise. */
  lemma MidRoundOrders(job: Job, s: Settings, current: seq<Rec>, all: seq<Rec>)
    requires MidRound(s, current, all) && (!job.inputs || Count(s.currentProcesses.value, Failed) > 0)
    ensures OrderFree(job, s) <==> Count(s.currentProcesses.value, Ready) == 0
  {
    var ps := s.currentProcesses.value;
    if Count(ps, Ready) == 0 {
      forall e, o, o' | Complete(o) && Complete(o')
        ensures Drive(job, Ctx(s, false), e, o) == Drive(job, Ctx(s, false), e, o')
      {
        DriveSchedules(job, s, e, current, all, o);
        DriveSchedules(job, s, e, current, all, o');
      }
    } else {
      CountZero(ps, Ready);
      var i :| 0 <= i < |ps| && ps[i].status == Ready;
      OrdersDiffer(job, s, current, all, i);
      CompleteOrders(Schedule, Execute);
      CompleteOrders(Execute, Schedule);
      assert Drive(job, Ctx(s, false), OneLaunches(ps[i].id), [Schedule, Execute] + REST)
          != Drive(job, Ctx(s, false), OneLaunches(ps[i].id), [Execute, Schedule] + REST);
      hide MidRound, Drive, Complete;
    }
  }

  // A round in which the order matters

  const A := Node("1", "a", "", NodeRunning)
  const B := Node("2", "b", "", NodeRunning)

  /** Two processes on two nodes have failed; both have been handed out again, and one node has confirmed. */
  function HalfConfirmed(): Settings {
    var failed := [Rec(1, "a", Failed, 0), Rec(2, "b", Failed, 0)];
    EMPTY.(configureDone := Some(1), createDone := Some(1), createdNodes := Some([A, B]),
           bootstrappedNodes := Some([A, B]), bootstrapDone := Some(1), systemId := Some(0),
           scheduleStarted := Some(1), scheduleCompleted := Some(1), executedProcs := Some([]),
           currentProcesses := Some(failed + [Rec(1, "a", Ready, 0), Rec(2, "b", RescheduleReady, 0)]),
           allProcesses := Some(failed + [Rec(1, "a", Ready, 0), Rec(2, "b", Ready, 0)]),
           procs2bRescheduled := Some(failed), rescheduledNodes := Some([A]), totalRescheduledProcs := Some(1))
  }

  lemma HalfConfirmedMidRound()
    ensures var failed := [Rec(1, "a", Failed, 0), Rec(2, "b", Failed, 0)]; MidRound(HalfConfirmed(), failed, failed)
  {
    var s, failed := HalfConfirmed(), [Rec(1, "a", Failed, 0), Rec(2, "b", Failed, 0)];
    assert RunningNodes([A, B]) == [A, B];
    var c, a := [Rec(1, "a", Ready, 0), Rec(2, "b", RescheduleReady, 0)],
        [Rec(1, "a", Ready, 0), Rec(2, "b", Ready, 0)];
    assert s.currentProcesses.value == failed + c && s.allProcesses.value == failed + a;
    CountConcat(failed, c, RescheduleReady);
    CountZero(failed, RescheduleReady);
    assert Count(c, RescheduleReady) == 1 by {
      assert c[1..] == [c[1]] && [c[1]][1..] == [];
    }
    assert (failed + c)[2..] == c && (failed + c)[..2] == failed && (failed + a)[2..] == a;
    assert (failed + a)[..2] == failed;
    assert Ids(c) == Ids(failed);
  }

  /** A state in the middle of a round in which two complete orders of the stages have different results. */
  lemma OrderMatters(job: Job)
    ensures !OrderFree(job, HalfConfirmed())
  {
    var failed := [Rec(1, "a", Failed, 0), Rec(2, "b", Failed, 0)];
    HalfConfirmedMidRound();
    var ps := HalfConfirmed().currentProcesses.value;
    assert ps[0].status == Failed && ps[2].status == Ready;
    CountZero(ps, Failed);
    CountZero(ps, Ready);
    hide MidRound, OrderFree;
    MidRoundOrders(job, HalfConfirmed(), failed, failed);
  }
}

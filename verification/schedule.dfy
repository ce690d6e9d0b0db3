/** The schedule stage and the scheduling strategy it delegates to, as the loops Chiminey runs. */
module ScheduleStage {
  import opened Records
  import opened Processes
  import opened Scheduler
  import opened TableLemmas
  import opened JobState
  import Sweep

  /** The ids handed out on a first schedule: consecutive ones after `index`. */
  method NextIds(processes: nat, index: nat) returns (ids: seq<nat>)
    ensures |ids| == processes && forall i :: 0 <= i < processes ==> ids[i] == index + 1 + i
  {
    ids := [];
    var next := index;
    for i := 0 to processes
      invariant next == index + i && |ids| == i && forall j :: 0 <= j < i ==> ids[j] == index + 1 + j
    {
      ids := ids + [next + 1];
      next := next + 1;
    }
  }

  /** The ids handed out on a reschedule: popped from the front of the list, which must not run empty. */
  method PopIds(processes: nat, failed: seq<Rec>) returns (ids: seq<nat>, rest: seq<Rec>)
    requires processes <= |failed|
    ensures ids == Ids(failed[..processes]) && rest == failed[processes..]
  {
    ids, rest := [], failed;
    for i := 0 to processes
      invariant |ids| == i && rest == failed[i..] && forall j :: 0 <= j < i ==> ids[j] == failed[j].id
    {
      ids := ids + [rest[0].id];
      rest := rest[1..];
    }
  }

  function Entries(ids: seq<nat>, ip: string, retry: int, status: Status): (r: seq<Rec>)
    ensures |r| == |ids|
    ensures forall i :: 0 <= i < |ids| ==> r[i] == Rec(ids[i], ip, status, retry)
  {
    seq(|ids|, i requires 0 <= i < |ids| => Rec(ids[i], ip, status, retry))
  }

  method ConstructLookupTable(ids: seq<nat>, ip: string, processes: seq<Process>, retry: int, status: Status)
      returns (r: seq<Process>)
    ensures |r| == |processes| + |ids| && r[..|processes|] == processes
    ensures forall p :: p in r ==> p in processes || fresh(p)
    ensures Values(r) == old(Values(processes)) + Entries(ids, ip, retry, status)
  {
    r := processes;
    for i := 0 to |ids|
      invariant |r| == |processes| + i && r[..|processes|] == processes
      invariant forall p :: p in r ==> p in processes || fresh(p)
      invariant Values(r) == old(Values(processes)) + Entries(ids, ip, retry, status)[..i]
    {
      var p := new Process(Rec(ids[i], ip, status, retry));
      r := r + [p];
    }
  }

  /** The nodes a round robin visits, and what each gets; no node and no extra when there is nothing to hand out. */
  method Shares(nodes: seq<Node>, processes: nat) returns (used: seq<Node>, perNode: nat, remaining: nat)
    ensures used == nodes[..Used(nodes, processes)]
    ensures used != [] ==> perNode == processes / |used| && remaining == processes % |used|
  {
    var total := |nodes|;
    used := nodes;
    if total > processes {
      total := processes;
      used := nodes[..total];
    }
    perNode, remaining := 0, 0;
    if total != 0 {
      perNode, remaining := processes / total, processes % total;
    }
  }

  /** `None` is the missing result the caller cannot unpack. */
  method StartRoundRobinSchedule(nodes: seq<Node>, processes: nat, scheduleIndex: nat, retry: int)
      returns (r: Option<(nat, seq<Process>)>)
    ensures r.None? <==> nodes == [] || processes == 0
    ensures r.Some? ==>
              && r.value.0 == scheduleIndex + processes
              && Values(r.value.1) == RoundRobin(nodes, processes, scheduleIndex, retry)
              && forall p :: p in r.value.1 ==> fresh(p)
  {
    hide Alloc, Entries, Values;
    var used, perNode, remaining := Shares(nodes, processes);
    if used == [] {
      return None;
    }
    var index: nat := scheduleIndex;
    var ps: seq<Process> := [];
    ghost var want := Alloc(used, perNode, remaining, index, retry);
    for j := 0 to |used|
      invariant forall p :: p in ps ==> fresh(p)
      invariant Values(ps) + Alloc(used[j..], perNode, remaining, index, retry) == want
      invariant index == scheduleIndex + |ps|
    {
      var here := perNode;
      ghost var extra := remaining;
      if remaining > 0 {
        here := perNode + 1;
        remaining := remaining - 1;
      }
      var ids := NextIds(here, index);
      AllocStep(Values(ps), used, j, perNode, extra, index, retry, ids);
      index := index + |ids|;
      ps := ConstructLookupTable(ids, used[j].ip, ps, retry, Ready);
    }
    AllocDone(Values(ps), used, perNode, remaining, index, retry);
    RoundRobinIds(nodes, processes, scheduleIndex, retry);
    return Some((index, ps));
  }

  lemma AllocDone(done: seq<Rec>, nodes: seq<Node>, perNode: nat, remaining: nat, index: nat, retry: int)
    ensures done + Alloc(nodes[|nodes|..], perNode, remaining, index, retry) == done
  {
  }

  lemma AllocFirst(nodes: seq<Node>, j: nat, perNode: nat, remaining: nat, index: nat, retry: int)
    requires j < |nodes|
    ensures var k, rest := Scheduler.Load(perNode, remaining), if remaining > 0 then remaining - 1 else 0;
            Alloc(nodes[j..], perNode, remaining, index, retry)
              == Block(index, k, nodes[j].ip, retry) + Alloc(nodes[j + 1..], perNode, rest, index + k, retry)
  {
    assert nodes[j..][1..] == nodes[j + 1..] && nodes[j..][0] == nodes[j];
    hide Block;
  }

  lemma BlockEntries(ids: seq<nat>, index: nat, ip: string, retry: int)
    requires forall i :: 0 <= i < |ids| ==> ids[i] == index + 1 + i
    ensures Entries(ids, ip, retry, Ready) == Block(index, |ids|, ip, retry)
  {
  }

  /** One node's block moves from what is still to be allocated to what is. */
  lemma AllocStep(done: seq<Rec>, nodes: seq<Node>, j: nat, perNode: nat, remaining: nat, index: nat, retry: int,
                  ids: seq<nat>)
    requires j < |nodes| && |ids| == Scheduler.Load(perNode, remaining)
    requires forall i :: 0 <= i < |ids| ==> ids[i] == index + 1 + i
    ensures done + Alloc(nodes[j..], perNode, remaining, index, retry)
         == (done + Entries(ids, nodes[j].ip, retry, Ready))
          + Alloc(nodes[j + 1..], perNode, if remaining > 0 then remaining - 1 else 0, index + |ids|, retry)
  {
    var rest := if remaining > 0 then remaining - 1 else 0;
    var block, tail := Block(index, |ids|, nodes[j].ip, retry),
        Alloc(nodes[j + 1..], perNode, rest, index + |ids|, retry);
    hide Entries;
    AllocFirst(nodes, j, perNode, remaining, index, retry);
    BlockEntries(ids, index, nodes[j].ip, retry);
    hide Alloc, Block;
    Assoc(done, block, tail);
  }

  /** The failed processes are handed out to the nodes again, as new records behind the current ones. */
  method StartRoundRobinReschedule(nodes: seq<Node>, procs2b: seq<Rec>, current: seq<Process>, retry: int)
      returns (r: Option<seq<Process>>)
    ensures r.None? <==> nodes == [] || procs2b == []
    ensures r.Some? ==>
              && Values(r.value) == old(Values(current)) + RoundRobinReassign(nodes, procs2b, retry)
              && forall p :: p in r.value ==> p in current || fresh(p)
  {
    hide Reassign, Entries, Values, Fits;
    var used, perNode, remaining := Shares(nodes, |procs2b|);
    if used == [] {
      return None;
    }
    var ps, rest := current, procs2b;
    FitsStart(|used|, |procs2b|);
    ghost var want := Values(current) + Reassign(used, perNode, remaining, procs2b, retry);
    for j := 0 to |used|
      invariant forall p :: p in ps ==> p in current || fresh(p)
      invariant 0 <= remaining && Fits(|used| - j, perNode, remaining, |rest|)
      invariant Values(ps) + Reassign(used[j..], perNode, remaining, rest, retry) == want
    {
      var here := perNode;
      ghost var extra := remaining;
      if remaining > 0 {
        here := perNode + 1;
        remaining := remaining - 1;
      }
      ReassignStep(Values(ps), used, j, perNode, extra, rest, retry);
      var ids;
      ids, rest := PopIds(here, rest);
      ps := ConstructLookupTable(ids, used[j].ip, ps, retry, RescheduleReady);
    }
    ReassignDone(Values(ps), used, perNode, remaining, rest, retry);
    return Some(ps);
  }

  lemma ReassignStep(done: seq<Rec>, nodes: seq<Node>, j: nat, perNode: nat, remaining: nat, failed: seq<Rec>,
                     retry: int)
    requires j < |nodes| && Fits(|nodes| - j, perNode, remaining, |failed|)
    ensures var k, rest := Scheduler.Load(perNode, remaining), if remaining > 0 then remaining - 1 else 0;
            && k <= |failed| && Fits(|nodes| - (j + 1), perNode, rest, |failed[k..]|)
            && done + Reassign(nodes[j..], perNode, remaining, failed, retry)
            == (done + Entries(Ids(failed[..k]), nodes[j].ip, retry, RescheduleReady))
             + Reassign(nodes[j + 1..], perNode, rest, failed[k..], retry)
  {
    var k := Scheduler.Load(perNode, remaining);
    FitsNext(|nodes| - j, perNode, remaining, |failed|);
    assert nodes[j..][1..] == nodes[j + 1..];
    assert Entries(Ids(failed[..k]), nodes[j].ip, retry, RescheduleReady)
             == RescheduleBlock(failed[..k], nodes[j].ip, retry);
  }

  lemma ReassignDone(done: seq<Rec>, nodes: seq<Node>, perNode: nat, remaining: nat, failed: seq<Rec>, retry: int)
    requires Fits(0, perNode, remaining, |failed|)
    ensures done + Reassign(nodes[|nodes|..], perNode, remaining, failed, retry) == done
  {
  }

  /** New records join the history. */
  method AppendProcesses(all: seq<Process>, processes: seq<Process>) returns (r: seq<Process>)
    ensures r == all + processes
  {
    r := all;
    for i := 0 to |processes|
      invariant r == all + processes[..i]
    {
      r := r + [processes[i]];
    }
  }

  lemma {:induction false} FilterConcat(a: seq<Rec>, b: seq<Rec>, st: Status)
    ensures Filter(a + b, st) == Filter(a, st) + Filter(b, st)
  {
    if a == [] {
      assert a + b == b;
    } else {
      assert (a + b)[1..] == a[1..] + b;
      var head := if a[0].status == st then [a[0]] else [];
      assert Filter(a + b, st) == head + Filter(a[1..] + b, st) && Filter(a, st) == head + Filter(a[1..], st);
      FilterConcat(a[1..], b, st);
      hide Filter;
      Assoc(head, Filter(a[1..], st), Filter(b, st));
    }
  }

  lemma FilterSnoc(ps: seq<Rec>, i: nat, st: Status)
    requires i < |ps|
    ensures Filter(ps[..i + 1], st) == Filter(ps[..i], st) + if ps[i].status == st then [ps[i]] else []
  {
    assert ps[..i + 1] == ps[..i] + [ps[i]];
    FilterConcat(ps[..i], [ps[i]], st);
    assert [ps[i]][1..] == [];
  }

  /** On a reschedule only the waiting records join. */
  method AppendWaiting(all: seq<Process>, processes: seq<Process>) returns (r: seq<Process>)
    ensures Values(r) == old(Values(all) + Filter(Values(processes), RescheduleReady))
    ensures forall p :: p in r ==> p in all || p in processes
  {
    r := all;
    for i := 0 to |processes|
      invariant forall p :: p in r ==> p in all || p in processes
      invariant Values(r) == Values(all) + Filter(Values(processes)[..i], RescheduleReady)
    {
      FilterSnoc(Values(processes), i, RescheduleReady);
      if processes[i].status == RescheduleReady {
        r := r + [processes[i]];
      }
    }
    assert Values(processes)[..|processes|] == Values(processes);
  }

  /** Waiting records become ready, wherever they are. */
  method WaitingToReady(all: seq<Process>)
    modifies all`status
    ensures forall p :: p in all ==> p.status == if old(p.status) == RescheduleReady then Ready else old(p.status)
  {
    for i := 0 to |all|
      invariant forall p :: p in all ==>
                  p.status == old(p.status) || (old(p.status) == RescheduleReady && p.status == Ready)
      invariant forall j :: 0 <= j < i ==> all[j].status != RescheduleReady
    {
      if all[i].status == RescheduleReady {
        all[i].status := Ready;
      }
    }
  }

  class Schedule {
    var createdNodes: seq<Node>
    var bootstrappedNodes: seq<Node>
    var scheduledNodes: seq<Node>
    var rescheduledNodes: seq<Node>
    var procs2bRescheduled: seq<Rec>
    var currentProcesses: seq<Process>
    var allProcesses: seq<Process>
    var totalScheduledProcs: int
    var totalRescheduledProcs: int
    var totalProcesses: nat
    var scheduleIndex: nat
    var started: int

    constructor () {
      createdNodes, bootstrappedNodes, scheduledNodes, rescheduledNodes, procs2bRescheduled := [], [], [], [], [];
      currentProcesses, allProcesses := [], [];
      totalScheduledProcs, totalRescheduledProcs, totalProcesses, scheduleIndex, started := 0, 0, 0, 0, 0;
    }

    /** The two tables never share an object: they are read back one after the other. */
    ghost predicate Apart()
      reads this
    {
      forall i, j :: 0 <= i < |currentProcesses| && 0 <= j < |allProcesses| ==> currentProcesses[i] != allProcesses[j]
    }

    /** The tables and counters of a reschedule round. */
    function RoundNow(): Round
      reads this, currentProcesses, allProcesses
    {
      Round(rescheduledNodes, Values(currentProcesses), Values(allProcesses), totalRescheduledProcs)
    }

    /** The processes of the current table on a node. */
    method ProcessesOn(ip: string) returns (r: seq<Process>)
      ensures |r| == CountIp(Values(currentProcesses), ip)
    {
      r := [];
      for i := 0 to |currentProcesses|
        invariant |r| == CountIp(Values(currentProcesses)[..i], ip)
      {
        var v := Values(currentProcesses);
        assert v[..i + 1] == v[..i] + [v[i]];
        CountIpConcat(v[..i], [v[i]], ip);
        if currentProcesses[i].ip == ip {
          r := r + [currentProcesses[i]];
        }
      }
      assert Values(currentProcesses)[..|currentProcesses|] == Values(currentProcesses);
    }

    lemma OneMoreWaiting(i: nat, ip: string)
      requires i < |currentProcesses|
      ensures CountWaiting(Values(currentProcesses)[..i + 1], ip) == CountWaiting(Values(currentProcesses)[..i], ip)
            + if currentProcesses[i].ip == ip && currentProcesses[i].status == RescheduleReady then 1 else 0
    {
      var v := Values(currentProcesses);
      assert v[..i + 1] == v[..i] + [v[i]];
      CountWaitingConcat(v[..i], [v[i]], ip);
    }

    /** Those of them that wait to be rescheduled. */
    method WaitingOn(ip: string) returns (r: seq<Process>)
      ensures |r| == CountWaiting(Values(currentProcesses), ip)
      ensures forall p :: p in r ==> p in currentProcesses
      ensures forall p :: p in currentProcesses ==> (p in r <==> p.ip == ip && p.status == RescheduleReady)
    {
      r := [];
      for i := 0 to |currentProcesses|
        invariant |r| == CountWaiting(Values(currentProcesses)[..i], ip)
        invariant forall p :: p in r ==> p in currentProcesses && p.ip == ip && p.status == RescheduleReady
        invariant forall j :: 0 <= j < i && currentProcesses[j].ip == ip ==>
                    currentProcesses[j].status == RescheduleReady ==> currentProcesses[j] in r
      {
        OneMoreWaiting(i, ip);
        if currentProcesses[i].ip == ip && currentProcesses[i].status == RescheduleReady {
          r := r + [currentProcesses[i]];
        }
      }
      assert Values(currentProcesses)[..|currentProcesses|] == Values(currentProcesses);
    }

    /** A node confirmed on a first schedule. */
    method ConfirmScheduled(node: Node)
      modifies this`scheduledNodes, this`totalScheduledProcs
      ensures scheduledNodes == old(scheduledNodes) + [Node(node.nid, node.ip, node.region, NodeRunning)]
      ensures totalScheduledProcs == old(totalScheduledProcs) + CountIp(Values(currentProcesses), node.ip)
    {
      scheduledNodes := scheduledNodes + [Node(node.nid, node.ip, node.region, NodeRunning)];
      var on := ProcessesOn(node.ip);
      totalScheduledProcs := totalScheduledProcs + |on|;
    }

    method ReadyOnNode(ip: string) returns (n: nat)
      requires Apart()
      modifies currentProcesses`status
      ensures Values(allProcesses) == old(Values(allProcesses))
      ensures n == CountWaiting(old(Values(currentProcesses)), ip)
      ensures Values(currentProcesses) == ReadyOn(old(Values(currentProcesses)), ip)
    {
      var waiting := WaitingOn(ip);
      n := |waiting|;
      forall i | 0 <= i < |waiting| ensures waiting[i] in currentProcesses {
        assert waiting[i] in waiting;
      }
      WaitingToReady(waiting);
      forall i | 0 <= i < |currentProcesses|
        ensures Values(currentProcesses)[i] == ReadyOn(old(Values(currentProcesses)), ip)[i]
      {
        assert currentProcesses[i] in currentProcesses;
      }
    }

    method HistoryToReady()
      requires Apart()
      modifies allProcesses`status
      ensures Values(currentProcesses) == old(Values(currentProcesses))
      ensures Values(allProcesses) == ReadyEverywhere(old(Values(allProcesses)))
    {
      WaitingToReady(allProcesses);
      forall i | 0 <= i < |allProcesses|
        ensures Values(allProcesses)[i] == ReadyEverywhere(old(Values(allProcesses)))[i]
      {
        assert allProcesses[i] in allProcesses;
      }
    }

    /** A node confirmed on a reschedule: its waiting processes become ready in the current table, and every
      waiting one in the history. */
    method ConfirmRescheduled(node: Node)
      requires Apart()
      modifies this`rescheduledNodes, this`totalRescheduledProcs, currentProcesses, allProcesses
      ensures RoundNow() == ConfirmInRound(old(RoundNow()), node)
    {
      hide Values, Apart, ReadyOn, ReadyEverywhere, CountWaiting;
      var n := ReadyOnNode(node.ip);
      HistoryToReady();
      rescheduledNodes, totalRescheduledProcs :=
        rescheduledNodes + [Node(node.nid, node.ip, node.region, NodeRunning)], totalRescheduledProcs + n;
    }

    /** One node of a completion poll. */
    method CheckNode(node: Node, answers: set<string>)
      requires Apart()
      modifies this`scheduledNodes, this`totalScheduledProcs, this`rescheduledNodes, this`totalRescheduledProcs,
               currentProcesses, allProcesses
      ensures if procs2bRescheduled == [] then
                && scheduledNodes == ConfirmOne(node, answers, old(scheduledNodes))
                && totalScheduledProcs
                     == AddOne(node, answers, old(scheduledNodes), Values(currentProcesses), old(totalScheduledProcs))
                && RoundNow() == old(RoundNow())
              else
                && RoundNow() == PollOne(old(RoundNow()), node, answers)
                && scheduledNodes == old(scheduledNodes) && totalScheduledProcs == old(totalScheduledProcs)
    {
      var known := KnownIp(if procs2bRescheduled == [] then scheduledNodes else rescheduledNodes, node.ip);
      if !known && node.ip in answers {
        if procs2bRescheduled == [] {
          ConfirmScheduled(node);
        } else {
          ConfirmRescheduled(node);
        }
      }
    }

    /** One completion poll of all nodes; `answers` are the addresses that report a completed schedule. */
    method CompleteSchedule(answers: set<string>)
      requires Apart()
      modifies this`scheduledNodes, this`totalScheduledProcs, this`rescheduledNodes, this`totalRescheduledProcs,
               currentProcesses, allProcesses
      ensures if procs2bRescheduled == [] then
                && scheduledNodes == Confirm(bootstrappedNodes, answers, old(scheduledNodes))
                && totalScheduledProcs == AddConfirmed(bootstrappedNodes, answers, old(scheduledNodes),
                                                       old(Values(currentProcesses)), old(totalScheduledProcs))
                && RoundNow() == old(RoundNow())
              else
                && RoundNow() == PollRound(bootstrappedNodes, answers, old(RoundNow()))
                && scheduledNodes == old(scheduledNodes) && totalScheduledProcs == old(totalScheduledProcs)
    {
      hide Values, ConfirmOne, AddOne, PollOne;
      var nodes := bootstrappedNodes;
      for j := 0 to |nodes|
        invariant if procs2bRescheduled == [] then
                    && Confirm(nodes[j..], answers, scheduledNodes) == Confirm(nodes, answers, old(scheduledNodes))
                    && AddConfirmed(nodes[j..], answers, scheduledNodes, old(Values(currentProcesses)),
                                    totalScheduledProcs)
                       == AddConfirmed(nodes, answers, old(scheduledNodes), old(Values(currentProcesses)),
                                       old(totalScheduledProcs))
                    && RoundNow() == old(RoundNow())
                  else
                    && PollRound(nodes[j..], answers, RoundNow()) == PollRound(nodes, answers, old(RoundNow()))
                    && scheduledNodes == old(scheduledNodes) && totalScheduledProcs == old(totalScheduledProcs)
      {
        assert nodes[j..][1..] == nodes[j + 1..];
        CheckNode(nodes[j], answers);
      }
    }

    /** What the trigger leaves in the fields. */
    ghost predicate LoadedFrom(s: Settings)
      reads this, currentProcesses, allProcesses
    {
      && Apart()
      && bootstrappedNodes == s.bootstrappedNodes.GetOr([]) && procs2bRescheduled == s.procs2bRescheduled.GetOr([])
      && scheduledNodes == s.scheduledNodes.GetOr([]) && rescheduledNodes == s.rescheduledNodes.GetOr([])
      && Values(currentProcesses) == s.currentProcesses.GetOr([]) && Values(allProcesses) == s.allProcesses.GetOr([])
      && (if procs2bRescheduled == [] then totalScheduledProcs == s.totalScheduledProcs.GetOr(0)
          else totalRescheduledProcs == s.totalRescheduledProcs.GetOr(0))
    }

    method LoadTables(current: seq<Rec>, all: seq<Rec>)
      modifies this`currentProcesses, this`allProcesses
      ensures Values(currentProcesses) == current && Values(allProcesses) == all && Apart()
      ensures forall p :: p in currentProcesses || p in allProcesses ==> fresh(p)
    {
      var c := Processes.Load(current);
      label first:
      var a := Processes.Load(all);
      currentProcesses, allProcesses := c, a;
      forall i, j | 0 <= i < |c| && 0 <= j < |a| ensures c[i] != a[j] {
        assert c[i] in c && a[j] in a;
        assert fresh@first(a[j]);
      }
    }

    method IsTriggered(s: Settings) returns (triggered: bool)
      modifies this
      ensures triggered == ScheduleTriggered(s)
      ensures triggered ==> LoadedFrom(s)
      ensures triggered ==> forall p :: p in currentProcesses || p in allProcesses ==> fresh(p)
    {
      if s.createdNodes.None? {
        return false;
      }
      createdNodes := s.createdNodes.value;
      if |RunningNodes(createdNodes)| == 0 {
        return false;
      }
      if !IsSet(s.bootstrapDone) {
        return false;
      }
      if s.bootstrappedNodes.None? || |s.bootstrappedNodes.value| == 0 {
        return false;
      }
      bootstrappedNodes := s.bootstrappedNodes.value;
      procs2bRescheduled := s.procs2bRescheduled.GetOr([]);
      if procs2bRescheduled != [] {
        totalRescheduledProcs := s.totalRescheduledProcs.GetOr(0);
        if |procs2bRescheduled| == totalRescheduledProcs && totalRescheduledProcs != 0 {
          return false;
        }
      } else {
        totalScheduledProcs := s.totalScheduledProcs.GetOr(0);
        if IsSet(s.totalProcesses) && s.totalProcesses.value == totalScheduledProcs {
          return false;
        }
      }
      scheduledNodes := s.scheduledNodes.GetOr([]);
      rescheduledNodes := s.rescheduledNodes.GetOr([]);
      LoadTables(s.currentProcesses.GetOr([]), s.allProcesses.GetOr([]));
      return true;
    }

    /** The processes of one iteration, counted from the sweep map as the parent stage does. */
    method TotalProcesses(job: Job, e: Env) returns (n: nat)
      ensures n == TotalProcs(job, e)
      ensures n == |Sweep.Product(Sweep.Ranges(e.sweep))| * if job.inputs then e.inputDirs else 1
    {
      Sweep.ProductSize(Sweep.Ranges(e.sweep));
      if job.inputs {
        n := Sweep.ProcsFromInputDirs([e.sweep], e.inputDirs);
      } else {
        n := Sweep.ProcsFromMapVariations([e.sweep]);
        assert Sweep.Offset([e.sweep], 1) == Sweep.Offset([e.sweep], 0) + Sweep.Size(Sweep.Ranges(e.sweep));
      }
    }

    /** The start of a schedule. The missing result of an empty round robin cannot be unpacked. */
    method StartSchedule(job: Job, e: Env) returns (raised: bool)
      requires bootstrappedNodes != []
      modifies this`totalProcesses, this`currentProcesses, this`scheduleIndex, this`allProcesses
      ensures raised <==> TotalProcs(job, e) == 0
      ensures !raised ==>
                var current := RoundRobin(bootstrappedNodes, TotalProcs(job, e), old(scheduleIndex), job.maximumRetry);
                && totalProcesses == TotalProcs(job, e) && scheduleIndex == old(scheduleIndex) + TotalProcs(job, e)
                && Values(currentProcesses) == current
                && Values(allProcesses) == old(Values(allProcesses)) + current
    {
      hide RoundRobin, TotalProcs, Values;
      totalProcesses := TotalProcesses(job, e);
      currentProcesses := [];
      var r := StartRoundRobinSchedule(bootstrappedNodes, totalProcesses, scheduleIndex, job.maximumRetry);
      if r.None? {
        return true;
      }
      scheduleIndex, currentProcesses := r.value.0, r.value.1;
      allProcesses := AppendProcesses(allProcesses, currentProcesses);
      return false;
    }

    method StartReschedule(job: Job)
      requires bootstrappedNodes != [] && procs2bRescheduled != []
      modifies this`currentProcesses, this`allProcesses
      ensures var r := StartRound(bootstrappedNodes, procs2bRescheduled, old(Values(currentProcesses)),
                                  old(Values(allProcesses)),
                                  [], 0, job.maximumRetry);
              Values(currentProcesses) == r.current && Values(allProcesses) == r.all
    {
      var r := StartRoundRobinReschedule(bootstrappedNodes, procs2bRescheduled, currentProcesses, job.maximumRetry);
      currentProcesses := r.value;
      allProcesses := AppendWaiting(allProcesses, currentProcesses);
    }

    method Process(job: Job, s: Settings, e: Env) returns (raised: bool)
      requires ScheduleTriggered(s) && LoadedFrom(s)
      modifies this, currentProcesses, allProcesses
      ensures raised <==> ScheduleRun(job, s, e).Raised?
      ensures !raised ==> Written(s) == ScheduleRun(job, s, e).s
    {
      started := s.scheduleStarted.GetOr(0);
      raised := false;
      if started == 0 {
        raised := Start(job, s, e);
      } else {
        CompleteSchedule(e.scheduled);
        WritesComplete(s, e);
      }
    }

    method Start(job: Job, s: Settings, e: Env) returns (raised: bool)
      requires ScheduleTriggered(s) && LoadedFrom(s) && started == 0 && !IsSet(s.scheduleStarted)
      modifies this`scheduleIndex, this`totalProcesses, this`currentProcesses, this`allProcesses
      ensures raised <==> ScheduleRun(job, s, e).Raised?
      ensures !raised ==> Written(s) == ScheduleRun(job, s, e).s
    {
      hide RoundRobin, StartRound, Values;
      scheduleIndex := ScheduleIndex(s);
      raised := false;
      if procs2bRescheduled != [] {
        StartReschedule(job);
      } else {
        raised := StartSchedule(job, e);
      }
    }

    /** What a completion poll leads to is what the job's schedule step says. */
    lemma WritesComplete(s: Settings, e: Env)
      requires ScheduleTriggered(s) && started != 0
      requires bootstrappedNodes == s.bootstrappedNodes.GetOr([])
      requires procs2bRescheduled == s.procs2bRescheduled.GetOr([])
      requires var current, all := s.currentProcesses.GetOr([]), s.allProcesses.GetOr([]);
               var confirmed := s.scheduledNodes.GetOr([]);
               if procs2bRescheduled == [] then
                 && scheduledNodes == Confirm(bootstrappedNodes, e.scheduled, confirmed)
                 && totalScheduledProcs == AddConfirmed(bootstrappedNodes, e.scheduled, confirmed, current,
                                                        s.totalScheduledProcs.GetOr(0))
                 && rescheduledNodes == s.rescheduledNodes.GetOr([])
                 && Values(currentProcesses) == current && Values(allProcesses) == all
               else
                 && RoundNow() == PollRound(bootstrappedNodes, e.scheduled,
                                            Round(s.rescheduledNodes.GetOr([]), current, all,
                                                  s.totalRescheduledProcs.GetOr(0)))
                 && scheduledNodes == confirmed
      ensures Written(s) == if procs2bRescheduled == [] then CompleteScheduleRun(s, e) else CompleteRescheduleRun(s, e)
    {
      hide PollRound, Confirm, AddConfirmed, Values;
    }

    /** The settings as the stage writes them back. */
    function Written(s: Settings): Settings
      reads this, currentProcesses, allProcesses
    {
      var s' := s.(scheduledNodes := Some(scheduledNodes), rescheduledNodes := Some(rescheduledNodes),
                   allProcesses := Some(Values(allProcesses)), currentProcesses := Some(Values(currentProcesses)));
      if started == 0 then
        var s'' := s'.(scheduleStarted := Some(1), procs2bRescheduled := Some(procs2bRescheduled));
        if procs2bRescheduled == [] then
          s''.(totalProcesses := Some(totalProcesses), scheduleIndex := Some(scheduleIndex))
        else s''
      else if procs2bRescheduled != [] then
        if totalRescheduledProcs == |procs2bRescheduled| then
          s'.(scheduleCompleted := Some(1), procs2bRescheduled := Some([]), totalRescheduledProcs := Some(0),
              rescheduledNodes := Some([]))
        else s'.(totalRescheduledProcs := Some(totalRescheduledProcs))
      else
        var s'' := s'.(totalScheduledProcs := Some(totalScheduledProcs));
        if totalScheduledProcs == |currentProcesses| then s''.(scheduleCompleted := Some(1)) else s''
    }

    method Output(s: Settings) returns (s': Settings)
      ensures s' == Written(s)
    {
      s' := s.(scheduledNodes := Some(scheduledNodes), rescheduledNodes := Some(rescheduledNodes),
               allProcesses := Some(Values(allProcesses)), currentProcesses := Some(Values(currentProcesses)));
      if started == 0 {
        s' := s'.(scheduleStarted := Some(1), procs2bRescheduled := Some(procs2bRescheduled));
        if procs2bRescheduled == [] {
          s' := s'.(totalProcesses := Some(totalProcesses), scheduleIndex := Some(scheduleIndex));
        }
      } else if procs2bRescheduled != [] {
        s' := s'.(totalRescheduledProcs := Some(totalRescheduledProcs));
        if totalRescheduledProcs == |procs2bRescheduled| {
          s' := s'.(scheduleCompleted := Some(1), procs2bRescheduled := Some([]), totalRescheduledProcs := Some(0),
                    rescheduledNodes := Some([]));
        }
      } else {
        s' := s'.(totalScheduledProcs := Some(totalScheduledProcs));
        if totalScheduledProcs == |currentProcesses| {
          s' := s'.(scheduleCompleted := Some(1));
        }
      }
    }

    /** The stage as the driver runs it. */
    method Run(job: Job, s: Settings, e: Env) returns (triggered: bool, raised: bool, s': Settings)
      modifies this
      ensures triggered == ScheduleTriggered(s)
      ensures triggered ==> (raised <==> ScheduleRun(job, s, e).Raised?)
      ensures triggered && !raised ==> ScheduleRun(job, s, e) == Ok(s')
    {
      s', raised := s, false;
      triggered := IsTriggered(s);
      if triggered {
        forall i | 0 <= i < |currentProcesses| ensures fresh(currentProcesses[i]) {
          assert currentProcesses[i] in currentProcesses;
        }
        forall i | 0 <= i < |allProcesses| ensures fresh(allProcesses[i]) {
          assert allProcesses[i] in allProcesses;
        }
        raised := Process(job, s, e);
        if !raised {
          s' := Output(s);
        }
      }
    }
  }
}

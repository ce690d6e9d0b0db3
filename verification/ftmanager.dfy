/** The failure manager of a wait pass. Its methods write through shared record objects; what they do to one
  record is said by functions on record values. */
module FaultTolerance {
  import opened Records
  import opened Processes

  /** A running record on the address, and with the id when one is given. */
  predicate Hit(r: Rec, ip: string, only: Option<nat>) {
    r.ip == ip && r.status == Running && (only.Some? ==> r.id == only.value)
  }

  function Flag(r: Rec, ip: string, only: Option<nat>): Rec {
    if Hit(r, ip, only) then r.(status := Failed) else r
  }

  /** Equal but for the retries left, which never decide anything. */
  predicate Alike(a: Rec, b: Rec) {
    a.id == b.id && a.ip == b.ip && a.status == b.status
  }

  /** What may happen to the retries left of a record: nothing, or, for the process that failed, a decrease that
    stays at or above 0. */
  predicate Retried(before: int, after: int, isIt: bool) {
    after == before || (isIt && 0 <= after < before)
  }

  /** The failed objects of `source` added to `destination`, unless an equal record is already there. */
  function CollectInto(source: seq<Process>, destination: seq<Process>): (r: seq<Process>)
    reads source, destination
    decreases |source|
  {
    if source == [] then destination
    else CollectInto(source[1..], if source[0].status == Failed && source[0].Value() !in Values(destination)
                                  then destination + [source[0]] else destination)
  }

  /** Only failed records of the table, each at most once, and all of the first `k`. */
  ghost predicate CollectedFrom(table: seq<Process>, k: nat, destination: seq<Process>)
    requires k <= |table|
    reads table
  {
    && Distinct(destination)
    && (forall i :: 0 <= i < |destination| ==> destination[i] in table && destination[i].status == Failed)
    && (forall i :: 0 <= i < k && table[i].status == Failed ==> table[i] in destination)
  }

  /** Equal records of a table with distinct ids are the same object. */
  lemma SameObject(table: seq<Process>, k: nat, destination: seq<Process>)
    requires k < |table| && DistinctIds(Values(table)) && table[k].Value() in Values(destination)
    requires forall i :: 0 <= i < |destination| ==> destination[i] in table
    ensures table[k] in destination
  {
    var i :| 0 <= i < |destination| && Values(destination)[i] == table[k].Value();
    var j :| 0 <= j < |table| && table[j] == destination[i];
    assert Values(table)[j].id == Values(table)[k].id;
  }

  lemma OtherObject(p: Process, destination: seq<Process>)
    requires p.Value() !in Values(destination)
    ensures forall i :: 0 <= i < |destination| ==> destination[i] != p
  {
    forall i | 0 <= i < |destination| ensures destination[i] != p {
      assert Values(destination)[i] != p.Value();
    }
  }

  lemma CollectNew(table: seq<Process>, k: nat, destination: seq<Process>)
    requires k < |table| && CollectedFrom(table, k, destination) && table[k].status == Failed
    requires forall i :: 0 <= i < |destination| ==> destination[i] != table[k]
    ensures CollectedFrom(table, k + 1, destination + [table[k]])
  {
  }

  lemma CollectOld(table: seq<Process>, k: nat, destination: seq<Process>)
    requires k < |table| && CollectedFrom(table, k, destination)
    requires (table[k].status == Failed ==> table[k] in destination)
    ensures CollectedFrom(table, k + 1, destination)
  {
  }

  lemma CollectStep(table: seq<Process>, k: nat, destination: seq<Process>)
    requires k < |table| && DistinctIds(Values(table)) && CollectedFrom(table, k, destination)
    ensures var p := table[k];
            CollectedFrom(table, k + 1,
                          if p.status == Failed && p.Value() !in Values(destination) then destination + [p]
                          else destination)
  {
    if table[k].Value() in Values(destination) {
      SameObject(table, k, destination);
      CollectOld(table, k, destination);
    } else if table[k].status == Failed {
      OtherObject(table[k], destination);
      CollectNew(table, k, destination);
    } else {
      CollectOld(table, k, destination);
    }
    hide DistinctIds, Values, CollectedFrom;
  }

  /** Collecting from a table whose ids are distinct, into a list that shares its objects, leaves every failed
    record of the table in the list exactly once, and nothing else. */
  lemma {:induction false} CollectsOnce(table: seq<Process>, k: nat, destination: seq<Process>)
    requires k <= |table| && DistinctIds(Values(table)) && CollectedFrom(table, k, destination)
    ensures var r := CollectInto(table[k..], destination);
            destination <= r && CollectedFrom(table, |table|, r)
    decreases |table| - k
  {
    if k < |table| {
      var p := table[k];
      CollectStep(table, k, destination);
      assert table[k..][0] == p && table[k..][1..] == table[k + 1..];
      hide CollectedFrom, DistinctIds;
      CollectsOnce(table, k + 1,
                   if p.status == Failed && p.Value() !in Values(destination) then destination + [p] else destination);
    }
  }

  class FTManager {

    constructor () {}

    method FlagAllProcesses(lists: seq<seq<Process>>, ip: string)
      modifies Objects(lists)`status
      ensures forall p :: p in Objects(lists) ==> p.Value() == Flag(old(p.Value()), ip, None)
      ensures forall p :: p in Objects(lists) ==>
                p.status == if p.ip == ip && old(p.status) == Running then Failed else old(p.status)
    {
      for i := 0 to |lists|
        invariant forall p :: p in Objects(lists) ==>
                    p.Value() == old(p.Value()) || p.Value() == Flag(old(p.Value()), ip, None)
        invariant forall p :: p in Objects(lists[..i]) ==> p.Value() == Flag(old(p.Value()), ip, None)
      {
        for j := 0 to |lists[i]|
          invariant forall p :: p in Objects(lists) ==>
                      p.Value() == old(p.Value()) || p.Value() == Flag(old(p.Value()), ip, None)
          invariant forall p :: p in Objects(lists[..i]) || p in lists[i][..j] ==>
                      p.Value() == Flag(old(p.Value()), ip, None)
        {
          var p := lists[i][j];
          assert p in Objects(lists);
          if p.ip == ip && p.status == Running {
            p.status := Failed;
          }
        }
        assert forall p :: p in Objects(lists[..i + 1]) ==> p in Objects(lists[..i]) || p in lists[i];
      }
      assert lists[..|lists|] == lists;
    }

    method FlagThisProcess(lists: seq<seq<Process>>, ip: string, id: nat)
      modifies Objects(lists)`status
      ensures forall p :: p in Objects(lists) ==> p.Value() == Flag(old(p.Value()), ip, Some(id))
      ensures forall p :: p in Objects(lists) ==>
                p.status == if p.ip == ip && p.id == id && old(p.status) == Running then Failed else old(p.status)
    {
      for i := 0 to |lists|
        invariant forall p :: p in Objects(lists) ==>
                    p.Value() == old(p.Value()) || p.Value() == Flag(old(p.Value()), ip, Some(id))
        invariant forall p :: p in Objects(lists[..i]) ==> p.Value() == Flag(old(p.Value()), ip, Some(id))
      {
        for j := 0 to |lists[i]|
          invariant forall p :: p in Objects(lists) ==>
                      p.Value() == old(p.Value()) || p.Value() == Flag(old(p.Value()), ip, Some(id))
          invariant forall p :: p in Objects(lists[..i]) || p in lists[i][..j] ==>
                      p.Value() == Flag(old(p.Value()), ip, Some(id))
        {
          var p := lists[i][j];
          assert p in Objects(lists);
          if p.ip == ip && p.status == Running && p.id == id {
            p.status := Failed;
          }
        }
        assert forall p :: p in Objects(lists[..i + 1]) ==> p in Objects(lists[..i]) || p in lists[i];
      }
      assert lists[..|lists|] == lists;
    }

    method GetTotalFailedProcesses(ps: seq<Process>) returns (failed: nat)
      ensures failed == Count(Values(ps), Failed)
    {
      failed := 0;
      for i := 0 to |ps|
        invariant failed == Count(Values(ps)[..i], Failed)
      {
        assert Values(ps)[..i + 1] == Values(ps)[..i] + [Values(ps)[i]];
        CountConcat(Values(ps)[..i], [Values(ps)[i]], Failed);
        if ps[i].status == Failed {
          failed := failed + 1;
        }
      }
      assert Values(ps)[..|ps|] == Values(ps);
    }

    /** The addresses are compared by object identity, which equal strings may or may not have. */
    method DecreaseMaxRetry(lists: seq<seq<Process>>, ip: string, id: nat)
      modifies Objects(lists)`retryLeft
      ensures forall p :: p in Objects(lists) ==> Retried(old(p.retryLeft), p.retryLeft, p.ip == ip && p.id == id)
    {
      for i := 0 to |lists|
        invariant forall p :: p in Objects(lists) ==> Retried(old(p.retryLeft), p.retryLeft, p.ip == ip && p.id == id)
      {
        for j := 0 to |lists[i]|
          invariant forall p :: p in Objects(lists) ==> Retried(old(p.retryLeft), p.retryLeft, p.ip == ip && p.id == id)
        {
          var p := lists[i][j];
          assert p in Objects(lists);
          var identical: bool := *;
          if p.ip == ip && identical && p.id == id {
            var retry := p.retryLeft;
            if retry > 0 {
              p.retryLeft := retry - 1;
            }
          }
        }
      }
    }

    method CollectFailedProcesses(source: seq<Process>, destination: seq<Process>) returns (r: seq<Process>)
      ensures r == CollectInto(source, destination)
    {
      r := destination;
      for i := 0 to |source|
        invariant forall p :: p in r ==> p in source || p in destination
        invariant CollectInto(source[i..], r) == CollectInto(source, destination)
      {
        if source[i].status == Failed && source[i].Value() !in Values(r) {
          r := r + [source[i]];
        }
        assert source[i..][1..] == source[i + 1..];
      }
    }

    /** The whole treatment of one failed poll. When the node is gone, every running record on its address fails
      in every list and the node is recorded unless its address already is; otherwise only the polled process
      fails. No other record changes its status, and only the polled process may lose a retry. */
    method ManageFailedProcess(terminated: bool, id: nat, node: Node, ip: string, failedNodes: seq<Node>,
                               executed: seq<Process>, current: seq<Process>, all: seq<Process>,
                               procs2b: seq<Process>)
        returns (failed: nat, failedNodes': seq<Node>, procs2b': seq<Process>)
      modifies Objects([executed, current, all])
      ensures forall p :: p in Objects([executed, current, all]) ==>
                && Alike(p.Value(), Flag(old(p.Value()), ip, if terminated then None else Some(id)))
                && Retried(old(p.retryLeft), p.retryLeft, p.ip == ip && p.id == id)
      ensures failedNodes' == if terminated && ip !in Ips(failedNodes) then failedNodes + [node] else failedNodes
      ensures failed == Count(Values(current), Failed)
      ensures procs2b' == CollectInto(current, procs2b)
    {
      failedNodes' := failedNodes;
      var lists := [executed, current, all];
      DecreaseMaxRetry(lists, ip, id);
      if terminated {
        var recorded := KnownIp(failedNodes, ip);
        if !recorded {
          failedNodes' := failedNodes' + [node];
        }
        FlagAllProcesses(lists, ip);
      } else {
        FlagThisProcess(lists, ip, id);
      }
      failed := GetTotalFailedProcesses(current);
      procs2b' := CollectFailedProcesses(current, procs2b);
    }
  }
}

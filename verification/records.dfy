/** Process records and nodes, as the stages of a job exchange them.

  A record is a dictionary `{status, id, ip_address, retry_left}` in the stored settings. `Rec` is that
  dictionary read as a value; `Processes.Process` is the dictionary as an object, the way a stage holds it while it
  runs:
  several lists of one stage may hold the same object, and a write through one list is seen through the others.
  Between two stage calls every list is written out and read back, so nothing is shared across calls.
*/
module Records {

  datatype Option<+T> = None | Some(value: T) {
    function GetOr(default: T): T {
      match this
      case Some(v) => v
      case None => default
    }
  }

  datatype Status = Ready | Running | Completed | Failed | RescheduleReady

  datatype Rec = Rec(id: nat, ip: string, status: Status, retry: int)

  datatype NodeState = NodeRunning | NodeFailed | NodeTerminated

  datatype Node = Node(nid: string, ip: string, region: string, state: NodeState)

  /** The number of records with a given status: the length of the list comprehensions the stages filter with. */
  function Count(ps: seq<Rec>, st: Status): (n: nat)
    ensures n <= |ps|
  {
    if ps == [] then 0 else (if ps[0].status == st then 1 else 0) + Count(ps[1..], st)
  }

  function Ids(ps: seq<Rec>): (ids: seq<nat>)
    ensures |ids| == |ps|
    ensures forall i :: 0 <= i < |ps| ==> ids[i] == ps[i].id
  {
    seq(|ps|, i requires 0 <= i < |ps| => ps[i].id)
  }

  ghost predicate DistinctIds(ps: seq<Rec>) {
    forall i, j :: 0 <= i < j < |ps| ==> ps[i].id != ps[j].id
  }

  ghost predicate AllStatus(ps: seq<Rec>, st: Status) {
    forall i :: 0 <= i < |ps| ==> ps[i].status == st
  }

  function Ips(nodes: seq<Node>): (ips: seq<string>)
    ensures |ips| == |nodes|
    ensures forall i :: 0 <= i < |nodes| ==> ips[i] == nodes[i].ip
  {
    seq(|nodes|, i requires 0 <= i < |nodes| => nodes[i].ip)
  }

  /** The membership test `ip in [x[1] for x in nodes if x[1] == ip]`. */
  method KnownIp(nodes: seq<Node>, ip: string) returns (r: bool)
    ensures r <==> ip in Ips(nodes)
  {
    r := false;
    for i := 0 to |nodes|
      invariant r <==> ip in Ips(nodes)[..i]
    {
      if nodes[i].ip == ip {
        r := true;
      }
    }
    assert Ips(nodes)[..|nodes|] == Ips(nodes);
  }

  ghost predicate DistinctIps(nodes: seq<Node>) {
    forall i, j :: 0 <= i < j < |nodes| ==> nodes[i].ip != nodes[j].ip
  }

  /** The nodes a comprehension `[x for x in nodes if x[3] == 'running']` keeps. */
  function RunningNodes(nodes: seq<Node>): (r: seq<Node>)
    ensures |r| <= |nodes|
    ensures (forall n :: n in nodes ==> n.state == NodeRunning) ==> r == nodes
  {
    if nodes == [] then []
    else if nodes[0].state == NodeRunning then [nodes[0]] + RunningNodes(nodes[1..])
    else RunningNodes(nodes[1..])
  }

  /** Exactly the running nodes are kept. */
  lemma {:induction false} RunningNodesAre(nodes: seq<Node>)
    ensures forall n :: n in RunningNodes(nodes) <==> n in nodes && n.state == NodeRunning
  {
    if nodes != [] {
      assert nodes == [nodes[0]] + nodes[1..];
      RunningNodesAre(nodes[1..]);
    }
  }

  /** Each as often and in the order as before. */
  lemma {:induction false} RunningNodesConcat(nodes: seq<Node>, more: seq<Node>)
    ensures RunningNodes(nodes + more) == RunningNodes(nodes) + RunningNodes(more)
  {
    if nodes == [] {
      assert nodes + more == more;
    } else {
      assert (nodes + more)[1..] == nodes[1..] + more;
      RunningNodesConcat(nodes[1..], more);
    }
  }

  lemma {:induction false} CountConcat(a: seq<Rec>, b: seq<Rec>, st: Status)
    ensures Count(a + b, st) == Count(a, st) + Count(b, st)
  {
    if a == [] {
      assert a + b == b;
    } else {
      assert (a + b)[1..] == a[1..] + b;
      CountConcat(a[1..], b, st);
    }
  }

  lemma CountSnoc(ps: seq<Rec>, p: Rec, st: Status)
    ensures Count(ps + [p], st) == Count(ps, st) + if p.status == st then 1 else 0
  {
    CountConcat(ps, [p], st);
    assert [p][1..] == [];
  }

  lemma PlacesSnoc(ps: seq<Rec>, p: Rec, st: Status)
    ensures (set k | 0 <= k < |ps + [p]| && (ps + [p])[k].status == st)
         == (set k | 0 <= k < |ps| && ps[k].status == st) + if p.status == st then {|ps|} else {}
  {
  }

  /** The number is that of the places at which a record has the status. */
  lemma {:induction false} CountPlaces(ps: seq<Rec>, st: Status)
    ensures Count(ps, st) == |set k | 0 <= k < |ps| && ps[k].status == st|
  {
    var at := set k | 0 <= k < |ps| && ps[k].status == st;
    if ps == [] {
      assert at == {};
    } else {
      var n := |ps| - 1;
      assert ps == ps[..n] + [ps[n]];
      CountPlaces(ps[..n], st);
      CountSnoc(ps[..n], ps[n], st);
      PlacesSnoc(ps[..n], ps[n], st);
    }
  }

  /** Changing one record's status moves one unit from one count to the other and leaves the rest alone. */
  lemma {:induction false} CountUpdate(ps: seq<Rec>, i: nat, r: Rec, st: Status)
    requires i < |ps|
    ensures Count(ps[i := r], st)
         == Count(ps, st) - (if ps[i].status == st then 1 else 0) + (if r.status == st then 1 else 0)
  {
    if i == 0 {
      assert ps[i := r][1..] == ps[1..];
    } else {
      assert ps[i := r][1..] == ps[1..][i - 1 := r];
      CountUpdate(ps[1..], i - 1, r, st);
    }
  }

  lemma {:induction false} CountZero(ps: seq<Rec>, st: Status)
    ensures Count(ps, st) == 0 <==> forall i :: 0 <= i < |ps| ==> ps[i].status != st
  {
    if ps != [] {
      CountZero(ps[1..], st);
      assert forall i :: 1 <= i < |ps| ==> ps[i] == ps[1..][i - 1];
    }
  }

  lemma {:induction false} CountFull(ps: seq<Rec>, st: Status)
    ensures Count(ps, st) == |ps| <==> AllStatus(ps, st)
  {
    if ps != [] {
      CountFull(ps[1..], st);
      assert forall i :: 1 <= i < |ps| ==> ps[i] == ps[1..][i - 1];
    }
  }

  /** Every record has exactly one of the five statuses, so the counts add up to the length. */
  lemma {:induction false} CountSplit(ps: seq<Rec>)
    ensures |ps| == Count(ps, Ready) + Count(ps, Running) + Count(ps, Completed) + Count(ps, Failed)
                  + Count(ps, RescheduleReady)
  {
    if ps != [] {
      CountSplit(ps[1..]);
    }
  }
}

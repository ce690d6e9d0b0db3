/** The scheduling strategy of a job on the values it reads and writes: round-robin allocation, confirmation of
  nodes, counting of scheduled processes. The methods of `ScheduleStage` are the loops; these functions say what the
  loops compute. */
module Scheduler {
  import opened Records

  /** The records of the processes of one node: consecutive ids after `index`. */
  function Block(index: nat, k: nat, ip: string, retry: int): (ps: seq<Rec>)
    ensures |ps| == k
    ensures forall i :: 0 <= i < k ==> ps[i] == Rec(index + 1 + i, ip, Ready, retry)
  {
    seq(k, i requires 0 <= i < k => Rec(index + 1 + i, ip, Ready, retry))
  }

  /** What one node of the round robin receives while `remaining` nodes still get an extra process. */
  function Load(perNode: nat, remaining: nat): nat {
    perNode + if remaining > 0 then 1 else 0
  }

  function Alloc(nodes: seq<Node>, perNode: nat, remaining: nat, index: nat, retry: int): seq<Rec>
  {
    if nodes == [] then []
    else
      var k := Load(perNode, remaining);
      Block(index, k, nodes[0].ip, retry)
        + Alloc(nodes[1..], perNode, if remaining > 0 then remaining - 1 else 0, index + k, retry)
  }

  /** The nodes a round robin of `processes` over `nodes` uses. */
  function Used(nodes: seq<Node>, processes: nat): (u: nat)
    ensures u <= |nodes|
  {
    if |nodes| > processes then processes else |nodes|
  }

  /** The schedule of `processes` over `nodes`; undefined where Chiminey returns nothing. */
  function RoundRobin(nodes: seq<Node>, processes: nat, index: nat, retry: int): seq<Rec>
    requires nodes != [] && processes > 0
  {
    var u := Used(nodes, processes);
    Alloc(nodes[..u], processes / u, processes % u, index, retry)
  }

  /** The number of records on one node. */
  function CountIp(ps: seq<Rec>, ip: string): (n: nat)
    ensures n <= |ps|
  {
    if ps == [] then 0 else (if ps[0].ip == ip then 1 else 0) + CountIp(ps[1..], ip)
  }

  lemma {:induction false} CountIpConcat(a: seq<Rec>, b: seq<Rec>, ip: string)
    ensures CountIp(a + b, ip) == CountIp(a, ip) + CountIp(b, ip)
  {
    if a == [] {
      assert a + b == b;
    } else {
      assert (a + b)[1..] == a[1..] + b;
      CountIpConcat(a[1..], b, ip);
    }
  }

  lemma {:induction false} CountIpUniform(ps: seq<Rec>, node: string, ip: string)
    requires forall i :: 0 <= i < |ps| ==> ps[i].ip == node
    ensures CountIp(ps, ip) == if ip == node then |ps| else 0
  {
    if ps != [] {
      CountIpUniform(ps[1..], node, ip);
    }
  }

  /** The records of an allocation carry consecutive ids after `index`, all ready, and as many as the loads add
    up to. */
  lemma {:induction false} AllocIds(nodes: seq<Node>, perNode: nat, remaining: nat, index: nat, retry: int)
    requires remaining <= |nodes|
    ensures var ps := Alloc(nodes, perNode, remaining, index, retry);
            && |ps| == |nodes| * perNode + remaining
            && forall i :: 0 <= i < |ps| ==> ps[i].id == index + 1 + i && ps[i].status == Ready && ps[i].retry == retry
  {
    if nodes != [] {
      var k := Load(perNode, remaining);
      AllocIds(nodes[1..], perNode, if remaining > 0 then remaining - 1 else 0, index + k, retry);
      assert |nodes| * perNode == perNode + (|nodes| - 1) * perNode;
    }
  }

  /** An address that is not among the nodes gets nothing. */
  lemma {:induction false} AllocNothing(nodes: seq<Node>, perNode: nat, remaining: nat, index: nat, retry: int,
                          ip: string)
    requires ip !in Ips(nodes)
    ensures CountIp(Alloc(nodes, perNode, remaining, index, retry), ip) == 0
  {
    if nodes != [] {
      var k, rest := Load(perNode, remaining), if remaining > 0 then remaining - 1 else 0;
      var block := Block(index, k, nodes[0].ip, retry);
      assert Ips(nodes) == [nodes[0].ip] + Ips(nodes[1..]);
      AllocNothing(nodes[1..], perNode, rest, index + k, retry, ip);
      CountIpConcat(block, Alloc(nodes[1..], perNode, rest, index + k, retry), ip);
      CountIpUniform(block, nodes[0].ip, ip);
    }
  }

  lemma HeadApart(nodes: seq<Node>)
    requires DistinctIps(nodes) && nodes != []
    ensures DistinctIps(nodes[1..]) && nodes[0].ip !in Ips(nodes[1..])
    ensures forall j :: 0 < j < |nodes| ==> nodes[j] == nodes[1..][j - 1] && nodes[j].ip != nodes[0].ip
  {
  }

  /** With distinct addresses, node `j` of an allocation holds its load. */
  lemma {:induction false} AllocLoad(nodes: seq<Node>, perNode: nat, remaining: nat, index: nat, retry: int, j: nat)
    requires DistinctIps(nodes) && j < |nodes|
    ensures CountIp(Alloc(nodes, perNode, remaining, index, retry), nodes[j].ip)
         == perNode + if j < remaining then 1 else 0
    decreases j
  {
    var k, rest := Load(perNode, remaining), if remaining > 0 then remaining - 1 else 0;
    var block, tail := Block(index, k, nodes[0].ip, retry), Alloc(nodes[1..], perNode, rest, index + k, retry);
    assert Alloc(nodes, perNode, remaining, index, retry) == block + tail;
    HeadApart(nodes);
    hide Alloc, CountIp, DistinctIps;
    CountIpConcat(block, tail, nodes[j].ip);
    CountIpUniform(block, nodes[0].ip, nodes[j].ip);
    if j == 0 {
      AllocNothing(nodes[1..], perNode, rest, index + k, retry, nodes[0].ip);
    } else {
      AllocLoad(nodes[1..], perNode, rest, index + k, retry, j - 1);
    }
  }

  lemma DivMod(p: nat, u: nat)
    requires u > 0
    ensures p % u <= u && u * (p / u) + p % u == p
  {
  }

  /** A round robin hands out exactly the next `processes` ids, in order. */
  lemma RoundRobinIds(nodes: seq<Node>, processes: nat, index: nat, retry: int)
    requires nodes != [] && processes > 0
    ensures var ps := RoundRobin(nodes, processes, index, retry);
            && |ps| == processes
            && forall i :: 0 <= i < |ps| ==> ps[i].id == index + 1 + i && ps[i].status == Ready && ps[i].retry == retry
  {
    var u := Used(nodes, processes);
    DivMod(processes, u);
    hide Alloc;
    AllocIds(nodes[..u], processes / u, processes % u, index, retry);
  }

  /** Round robin is fair: exactly `min(N, P)` nodes are used, the used ones are the first ones, each gets at
    least one process, the loads differ by at most one, and the larger loads come first. */
  lemma RoundRobinFair(nodes: seq<Node>, processes: nat, index: nat, retry: int)
    requires DistinctIps(nodes) && nodes != [] && processes > 0
    ensures var ps, u := RoundRobin(nodes, processes, index, retry), Used(nodes, processes);
            && (forall j :: 0 <= j < u ==> CountIp(ps, nodes[j].ip) >= 1)
            && (forall j :: u <= j < |nodes| ==> CountIp(ps, nodes[j].ip) == 0)
            && (forall i, j :: 0 <= i < j < u ==>
                  CountIp(ps, nodes[j].ip) <= CountIp(ps, nodes[i].ip) <= CountIp(ps, nodes[j].ip) + 1)
            && (forall ip :: ip !in Ips(nodes[..u]) ==> CountIp(ps, ip) == 0)
  {
    var ps, u := RoundRobin(nodes, processes, index, retry), Used(nodes, processes);
    var used := nodes[..u];
    forall ip ensures ip !in Ips(used) ==> CountIp(ps, ip) == 0 {
      if ip !in Ips(used) { AllocNothing(used, processes / u, processes % u, index, retry, ip); }
    }
    forall j | 0 <= j < u
      ensures CountIp(ps, nodes[j].ip) == processes / u + if j < processes % u then 1 else 0
    {
      AllocLoad(used, processes / u, processes % u, index, retry, j);
    }
    assert processes / u >= 1 by { QuotientAtLeastOne(processes, u); }
    forall j | u <= j < |nodes| ensures CountIp(ps, nodes[j].ip) == 0 {
      assert nodes[j].ip !in Ips(used);
    }
  }

  lemma QuotientAtLeastOne(p: nat, u: nat)
    requires 0 < u <= p
    ensures p / u >= 1
  {
    assert p == (p / u) * u + p % u;
  }

  /** The place among the nodes of process number `i`, counted from 0: the first `remaining` nodes take one process
    more than the others, which take `perNode`. */
  function Slot(i: nat, perNode: nat, remaining: nat): nat
    requires perNode > 0
  {
    if i < remaining * (perNode + 1) then i / (perNode + 1) else remaining + (i - remaining * (perNode + 1)) / perNode
  }

  lemma Quotient(a: nat, d: nat, q: nat)
    requires d > 0 && q * d <= a < q * d + d
    ensures a / d == q
  {
    var q' := a / d;
    assert a == q' * d + a % d;
    if q' > q { Times(q + 1, q', d); }
    if q' < q { Times(q' + 1, q, d); }
  }

  lemma Times(a: nat, b: nat, d: nat)
    requires a <= b
    ensures a * d <= b * d
  {
  }

  lemma DivLess(a: nat, d: nat)
    requires 0 < d <= a
    ensures (a - d) / d == a / d - 1
  {
    var q := a / d;
    assert a == q * d + a % d;
    assert q > 0;
    assert (q - 1) * d == q * d - d;
    Quotient(a - d, d, q - 1);
  }

  /** Behind the first node's processes the others follow as if there were no first node. */
  lemma SlotNext(i: nat, perNode: nat, remaining: nat)
    requires perNode > 0
    ensures var k, rest := Load(perNode, remaining), if remaining > 0 then remaining - 1 else 0;
            Slot(i, perNode, remaining) == if i < k then 0 else 1 + Slot(i - k, perNode, rest)
  {
    var d := perNode + 1;
    if remaining > 0 {
      OneLess(remaining, d);
      Times(0, remaining - 1, d);
      if i < d {
        Quotient(i, d, 0);
      } else {
        DivLess(i, d);
        var before := (remaining - 1) * d;
        assert Slot(i, perNode, remaining)
            == if i < before + d then i / d else remaining + (i - d - before) / perNode;
        assert Slot(i - d, perNode, remaining - 1)
            == if i - d < before then (i - d) / d else remaining - 1 + (i - d - before) / perNode;
      }
    } else if i < perNode {
      Quotient(i, perNode, 0);
    } else {
      DivLess(i, perNode);
    }
  }

  lemma OneLess(n: nat, k: nat)
    requires n > 0
    ensures n * k == k + (n - 1) * k
  {
  }

  /** Record `i` of an allocation is on the node at its place. */
  lemma {:induction false} AllocAt(nodes: seq<Node>, perNode: nat, remaining: nat, index: nat, retry: int, i: nat)
    requires perNode > 0 && remaining <= |nodes| && i < |nodes| * perNode + remaining
    ensures var ps, slot := Alloc(nodes, perNode, remaining, index, retry), Slot(i, perNode, remaining);
            && |ps| == |nodes| * perNode + remaining && slot < |nodes|
            && ps[i] == Rec(index + 1 + i, nodes[slot].ip, Ready, retry)
  {
    if nodes != [] {
      var k, rest := Load(perNode, remaining), if remaining > 0 then remaining - 1 else 0;
      var tail := Alloc(nodes[1..], perNode, rest, index + k, retry);
      AllocIds(nodes, perNode, remaining, index, retry);
      assert Alloc(nodes, perNode, remaining, index, retry) == Block(index, k, nodes[0].ip, retry) + tail;
      SlotNext(i, perNode, remaining);
      OneLess(|nodes|, perNode);
      hide Slot, Alloc;
      if i >= k {
        AllocAt(nodes[1..], perNode, rest, index + k, retry, i - k);
      }
    }
  }

  /** Which process goes to which node, with `q` and `r` the quotient and the remainder of the processes by the nodes
    used: the first `r` nodes take `q + 1` consecutive processes each, in order, and the other nodes `q` each. */
  lemma RoundRobinAt(nodes: seq<Node>, processes: nat, index: nat, retry: int, i: nat)
    requires nodes != [] && i < processes
    ensures var u := if |nodes| < processes then |nodes| else processes;
            var q, r := processes / u, processes % u;
            && q > 0
            && var slot := if i < r * (q + 1) then i / (q + 1) else r + (i - r * (q + 1)) / q;
               && 0 <= slot < u && |RoundRobin(nodes, processes, index, retry)| == processes
               && RoundRobin(nodes, processes, index, retry)[i]
                  == Rec(index + 1 + i, nodes[slot].ip, Ready, retry)
  {
    var u := Used(nodes, processes);
    QuotientAtLeastOne(processes, u);
    DivMod(processes, u);
    hide Alloc;
    AllocAt(nodes[..u], processes / u, processes % u, index, retry, i);
  }

  // ---------------------------------------------------------------------------------------------------------
  // Confirming nodes

  predicate IsNew(n: Node, answers: set<string>, confirmed: seq<Node>) {
    n.ip !in Ips(confirmed) && n.ip in answers
  }

  /** A node whose address is already confirmed is skipped, one that answers is added as running. */
  function ConfirmOne(n: Node, answers: set<string>, confirmed: seq<Node>): seq<Node> {
    if IsNew(n, answers, confirmed) then confirmed + [Node(n.nid, n.ip, n.region, NodeRunning)] else confirmed
  }

  /** The nodes confirmed after one more poll of `nodes`. */
  function Confirm(nodes: seq<Node>, answers: set<string>, confirmed: seq<Node>): seq<Node>
  {
    if nodes == [] then confirmed else Confirm(nodes[1..], answers, ConfirmOne(nodes[0], answers, confirmed))
  }

  /** The number of processes whose node is confirmed, node by node. */
  function Covered(ps: seq<Rec>, confirmed: seq<Node>): nat
  {
    if confirmed == [] then 0
    else Covered(ps, confirmed[..|confirmed| - 1]) + CountIp(ps, confirmed[|confirmed| - 1].ip)
  }

  /** Addresses of one list are all in another, or answered. */
  ghost predicate Answered(c: seq<Node>, k: nat, nodes: seq<Node>, answers: set<string>) {
    forall i :: k <= i < |c| ==> c[i].state == NodeRunning && c[i].ip in Ips(nodes) && c[i].ip in answers
  }

  lemma ConfirmOneKeeps(n: Node, answers: set<string>, confirmed: seq<Node>)
    requires DistinctIps(confirmed)
    ensures var c := ConfirmOne(n, answers, confirmed);
            && DistinctIps(c) && confirmed <= c
            && (n.ip in answers ==> n.ip in Ips(c)) && Answered(c, |confirmed|, [n], answers)
  {
    var c := ConfirmOne(n, answers, confirmed);
    forall i, j | 0 <= i < j < |c| ensures c[i].ip != c[j].ip {
      assert c[i].ip == Ips(confirmed)[i];
    }
    if n.ip in answers {
      assert Ips(c)[..|confirmed|] == Ips(confirmed);
      assert IsNew(n, answers, confirmed) ==> Ips(c)[|confirmed|] == n.ip;
    }
    assert Ips([n])[0] == n.ip;
  }

  lemma AnsweredTail(c: seq<Node>, k: nat, nodes: seq<Node>, answers: set<string>)
    requires nodes != [] && Answered(c, k, nodes[1..], answers)
    ensures Answered(c, k, nodes, answers)
  {
    forall i | k <= i < |c| ensures c[i].ip in Ips(nodes) {
      var j :| 0 <= j < |nodes[1..]| && Ips(nodes[1..])[j] == c[i].ip;
      assert Ips(nodes)[j + 1] == c[i].ip;
    }
  }

  lemma PrefixIps(a: seq<Node>, b: seq<Node>, ip: string)
    requires a <= b && ip in Ips(a)
    ensures ip in Ips(b)
  {
    var i :| 0 <= i < |a| && Ips(a)[i] == ip;
    assert Ips(b)[i] == ip;
  }

  /** One poll in terms of the nodes themselves: behind those confirmed before stand, in the order they are polled, the
    nodes at the places `at`, each with its id, its address and its region, now running. They are the nodes that
    answer and are not confirmed yet, and of several with one address the first. */
  ghost predicate Adds(nodes: seq<Node>, answers: set<string>, confirmed: seq<Node>, c: seq<Node>, at: seq<nat>) {
    && confirmed <= c && |c| == |confirmed| + |at|
    && (forall k :: 0 <= k < |at| ==> at[k] < |nodes| && c[|confirmed| + k] == nodes[at[k]].(state := NodeRunning))
    && (forall k, l :: 0 <= k < l < |at| ==> at[k] < at[l])
    && (forall j :: 0 <= j < |nodes| ==> (j in at <==> Chosen(nodes, answers, confirmed, j)))
  }

  ghost predicate Chosen(nodes: seq<Node>, answers: set<string>, confirmed: seq<Node>, j: nat)
    requires j < |nodes|
  {
    && nodes[j].ip in answers && (forall i :: 0 <= i < |confirmed| ==> confirmed[i].ip != nodes[j].ip)
    && (forall i :: 0 <= i < j ==> nodes[i].ip != nodes[j].ip)
  }

  /** The places of the rest of a list, counted in the whole list. */
  function Later(at: seq<nat>): (r: seq<nat>)
    ensures |r| == |at| && forall k :: 0 <= k < |at| ==> r[k] == at[k] + 1
  {
    seq(|at|, k requires 0 <= k < |at| => at[k] + 1)
  }

  lemma LaterHas(at: seq<nat>, j: nat)
    ensures j + 1 in Later(at) <==> j in at
    ensures 0 !in Later(at)
  {
    if j in at {
      var k :| 0 <= k < |at| && at[k] == j;
      assert Later(at)[k] == j + 1;
    }
  }

  lemma ChosenFirst(nodes: seq<Node>, answers: set<string>, confirmed: seq<Node>)
    requires nodes != []
    ensures Chosen(nodes, answers, confirmed, 0) <==> IsNew(nodes[0], answers, confirmed)
  {
    assert nodes[0].ip in Ips(confirmed) <==> exists i :: 0 <= i < |confirmed| && confirmed[i].ip == nodes[0].ip;
  }

  lemma ChosenLater(nodes: seq<Node>, answers: set<string>, confirmed: seq<Node>, j: nat)
    requires 0 < j < |nodes|
    ensures Chosen(nodes, answers, confirmed, j)
       <==> Chosen(nodes[1..], answers, ConfirmOne(nodes[0], answers, confirmed), j - 1)
  {
    var next, rest := ConfirmOne(nodes[0], answers, confirmed), nodes[1..];
    assert rest[j - 1] == nodes[j];
    assert next != confirmed ==> next[|confirmed|].ip == nodes[0].ip;
    assert forall i :: 0 <= i < |confirmed| ==> next[i] == confirmed[i];
    assert forall i :: 1 <= i < |nodes| ==> nodes[i] == rest[i - 1];
    if nodes[0].ip == nodes[j].ip && nodes[j].ip in answers && nodes[0].ip in Ips(confirmed) {
      var i :| 0 <= i < |confirmed| && Ips(confirmed)[i] == nodes[0].ip;
      assert next[i].ip == nodes[j].ip;
    }
  }

  lemma FirstPlaces(nodes: seq<Node>, answers: set<string>, confirmed: seq<Node>, rest: seq<nat>, at: seq<nat>)
    requires nodes != []
    requires at == (if IsNew(nodes[0], answers, confirmed) then [0] else []) + Later(rest)
    requires forall j :: 0 <= j < |nodes| - 1 ==>
               (j in rest <==> Chosen(nodes[1..], answers, ConfirmOne(nodes[0], answers, confirmed), j))
    ensures forall j :: 0 <= j < |nodes| ==> (j in at <==> Chosen(nodes, answers, confirmed, j))
  {
    hide Chosen, IsNew, ConfirmOne;
    forall j | 0 <= j < |nodes| ensures j in at <==> Chosen(nodes, answers, confirmed, j) {
      if j == 0 {
        ChosenFirst(nodes, answers, confirmed);
        LaterHas(rest, 0);
      } else {
        ChosenLater(nodes, answers, confirmed, j);
        LaterHas(rest, j - 1);
      }
    }
  }

  /** What stands at the places when the first node is left out or put in front. */
  lemma PlacedFirst(nodes: seq<Node>, first: bool, confirmed: seq<Node>, c: seq<Node>, rest: seq<nat>)
    requires nodes != []
    requires var next := if first then confirmed + [nodes[0].(state := NodeRunning)] else confirmed;
             && next <= c && |c| == |next| + |rest|
             && forall k :: 0 <= k < |rest| ==>
                  rest[k] < |nodes| - 1 && c[|next| + k] == nodes[1..][rest[k]].(state := NodeRunning)
    ensures var at := (if first then [0] else []) + Later(rest);
            && confirmed <= c && |c| == |confirmed| + |at|
            && forall k :: 0 <= k < |at| ==>
                 at[k] < |nodes| && c[|confirmed| + k] == nodes[at[k]].(state := NodeRunning)
  {
    var at := (if first then [0] else []) + Later(rest);
    forall k | 0 <= k < |at|
      ensures at[k] < |nodes| && c[|confirmed| + k] == nodes[at[k]].(state := NodeRunning)
    {
      if !first {
        assert at[k] == rest[k] + 1;
      } else if k == 0 {
        assert c[|confirmed|] == (confirmed + [nodes[0].(state := NodeRunning)])[|confirmed|];
      } else {
        assert at[k] == rest[k - 1] + 1;
      }
    }
  }

  lemma InOrderFirst(first: bool, rest: seq<nat>)
    requires forall k, l :: 0 <= k < l < |rest| ==> rest[k] < rest[l]
    ensures var at := (if first then [0] else []) + Later(rest);
            forall k, l :: 0 <= k < l < |at| ==> at[k] < at[l]
  {
  }

  lemma AddsFirst(nodes: seq<Node>, answers: set<string>, confirmed: seq<Node>, c: seq<Node>, rest: seq<nat>)
    requires nodes != [] && Adds(nodes[1..], answers, ConfirmOne(nodes[0], answers, confirmed), c, rest)
    ensures Adds(nodes, answers, confirmed, c,
                 (if IsNew(nodes[0], answers, confirmed) then [0] else []) + Later(rest))
  {
    hide Chosen, IsNew;
    var first := IsNew(nodes[0], answers, confirmed);
    var at := (if first then [0] else []) + Later(rest);
    assert ConfirmOne(nodes[0], answers, confirmed)
        == if first then confirmed + [nodes[0].(state := NodeRunning)] else confirmed;
    PlacedFirst(nodes, first, confirmed, c, rest);
    InOrderFirst(first, rest);
    FirstPlaces(nodes, answers, confirmed, rest, at);
  }

  lemma {:induction false} ConfirmPlaces(nodes: seq<Node>, answers: set<string>, confirmed: seq<Node>)
      returns (at: seq<nat>)
    ensures Adds(nodes, answers, confirmed, Confirm(nodes, answers, confirmed), at)
  {
    if nodes == [] {
      at := [];
    } else {
      hide Adds, ConfirmOne, IsNew;
      var rest := ConfirmPlaces(nodes[1..], answers, ConfirmOne(nodes[0], answers, confirmed));
      AddsFirst(nodes, answers, confirmed, Confirm(nodes, answers, confirmed), rest);
      at := (if IsNew(nodes[0], answers, confirmed) then [0] else []) + Later(rest);
    }
  }

  /** A poll adds only nodes that answer, each address once, and misses none that does. */
  lemma {:induction false} ConfirmKeeps(nodes: seq<Node>, answers: set<string>, confirmed: seq<Node>)
    requires DistinctIps(confirmed)
    ensures var c := Confirm(nodes, answers, confirmed);
            && DistinctIps(c) && confirmed <= c && Answered(c, |confirmed|, nodes, answers)
            && (forall j :: 0 <= j < |nodes| && nodes[j].ip in answers ==> nodes[j].ip in Ips(c))
            && exists at :: Adds(nodes, answers, confirmed, c, at)
  {
    var at := ConfirmPlaces(nodes, answers, confirmed);
    ConfirmAnswers(nodes, answers, confirmed);
    hide Confirm, Answered, DistinctIps, Adds;
  }

  lemma {:induction false} ConfirmAnswers(nodes: seq<Node>, answers: set<string>, confirmed: seq<Node>)
    requires DistinctIps(confirmed)
    ensures var c := Confirm(nodes, answers, confirmed);
            && DistinctIps(c) && confirmed <= c && Answered(c, |confirmed|, nodes, answers)
            && (forall j :: 0 <= j < |nodes| && nodes[j].ip in answers ==> nodes[j].ip in Ips(c))
  {
    if nodes != [] {
      var n := nodes[0];
      var next, c := ConfirmOne(n, answers, confirmed), Confirm(nodes, answers, confirmed);
      ConfirmOneKeeps(n, answers, confirmed);
      ConfirmAnswers(nodes[1..], answers, next);
      hide ConfirmOne, DistinctIps, IsNew;
      assert Answered(c, |confirmed|, nodes, answers) by {
        AnsweredTail(c, |next|, nodes, answers);
        assert n.ip == Ips(nodes)[0];
        assert Ips([n]) == [n.ip];
      }
      forall j | 0 <= j < |nodes| && nodes[j].ip in answers ensures nodes[j].ip in Ips(c) {
        if j == 0 {
          PrefixIps(next, c, n.ip);
        } else {
          assert nodes[j] == nodes[1..][j - 1];
        }
      }
    }
  }

  /** Adding processes of nodes that are confirmed only once counts each process once: the covered count is the
    number of processes whose node is among the confirmed ones. */
  function CountCovered(ps: seq<Rec>, ips: seq<string>): (n: nat)
    ensures n <= |ps|
  {
    if ps == [] then 0 else (if ps[0].ip in ips then 1 else 0) + CountCovered(ps[1..], ips)
  }

  lemma {:induction false} CountCoveredSnoc(ps: seq<Rec>, ips: seq<string>, ip: string)
    requires ip !in ips
    ensures CountCovered(ps, ips + [ip]) == CountCovered(ps, ips) + CountIp(ps, ip)
  {
    if ps != [] {
      CountCoveredSnoc(ps[1..], ips, ip);
    }
  }

  lemma {:induction false} CountCoveredConcat(a: seq<Rec>, b: seq<Rec>, ips: seq<string>)
    ensures CountCovered(a + b, ips) == CountCovered(a, ips) + CountCovered(b, ips)
  {
    if a == [] {
      assert a + b == b;
    } else {
      assert (a + b)[1..] == a[1..] + b;
      CountCoveredConcat(a[1..], b, ips);
    }
  }

  lemma CoveredSnoc(ps: seq<Rec>, p: Rec, ips: seq<string>)
    ensures CountCovered(ps + [p], ips) == CountCovered(ps, ips) + if p.ip in ips then 1 else 0
    ensures (set k | 0 <= k < |ps + [p]| && (ps + [p])[k].ip in ips)
         == (set k | 0 <= k < |ps| && ps[k].ip in ips) + if p.ip in ips then {|ps|} else {}
  {
    CountCoveredConcat(ps, [p], ips);
    assert [p][1..] == [];
  }

  /** The number is that of the places at which a record is on one of the nodes. */
  lemma {:induction false} CoveredPlaces(ps: seq<Rec>, ips: seq<string>)
    ensures CountCovered(ps, ips) == |set k | 0 <= k < |ps| && ps[k].ip in ips|
  {
    var at := set k | 0 <= k < |ps| && ps[k].ip in ips;
    if ps == [] {
      assert at == {};
    } else {
      var n := |ps| - 1;
      assert ps == ps[..n] + [ps[n]];
      CoveredPlaces(ps[..n], ips);
      CoveredSnoc(ps[..n], ps[n], ips);
      hide CountCovered;
    }
  }

  lemma {:induction false} CountCoveredNone(ps: seq<Rec>)
    ensures CountCovered(ps, []) == 0
  {
    if ps != [] {
      CountCoveredNone(ps[1..]);
    }
  }

  lemma {:induction false} CoveredCounts(ps: seq<Rec>, confirmed: seq<Node>)
    requires DistinctIps(confirmed)
    ensures Covered(ps, confirmed) == CountCovered(ps, Ips(confirmed)) <= |ps|
  {
    if confirmed == [] {
      CountCoveredNone(ps);
      assert Ips(confirmed) == [];
    } else {
      var last := |confirmed| - 1;
      CoveredCounts(ps, confirmed[..last]);
      assert Ips(confirmed) == Ips(confirmed[..last]) + [confirmed[last].ip];
      CountCoveredSnoc(ps, Ips(confirmed[..last]), confirmed[last].ip);
    }
  }

  /** Every process is covered exactly when every process's node is confirmed. */
  lemma {:induction false} CoveredAll(ps: seq<Rec>, ips: seq<string>)
    ensures CountCovered(ps, ips) == |ps| <==> forall i :: 0 <= i < |ps| ==> ps[i].ip in ips
  {
    if ps != [] {
      CoveredAll(ps[1..], ips);
      assert forall i :: 1 <= i < |ps| ==> ps[i] == ps[1..][i - 1];
    }
  }

  function AddOne(n: Node, answers: set<string>, confirmed: seq<Node>, ps: seq<Rec>, total: int): int {
    if IsNew(n, answers, confirmed) then total + CountIp(ps, n.ip) else total
  }

  /** One completion poll adds, for each node it confirms, the processes of that node. */
  function AddConfirmed(nodes: seq<Node>, answers: set<string>, confirmed: seq<Node>, ps: seq<Rec>, total: int): int
  {
    if nodes == [] then total
    else AddConfirmed(nodes[1..], answers, ConfirmOne(nodes[0], answers, confirmed), ps,
                      AddOne(nodes[0], answers, confirmed, ps, total))
  }

  /** A poll keeps the total equal to the number of covered processes, whatever the nodes answer. */
  lemma {:induction false} AddConfirmedCounts(nodes: seq<Node>, answers: set<string>, confirmed: seq<Node>,
                          ps: seq<Rec>, total: int)
    requires total == Covered(ps, confirmed)
    ensures AddConfirmed(nodes, answers, confirmed, ps, total) == Covered(ps, Confirm(nodes, answers, confirmed))
  {
    if nodes != [] {
      var next := ConfirmOne(nodes[0], answers, confirmed);
      assert next != confirmed ==> next[..|next| - 1] == confirmed;
      AddConfirmedCounts(nodes[1..], answers, next, ps, AddOne(nodes[0], answers, confirmed, ps, total));
    }
  }

  // ---------------------------------------------------------------------------------------------------------
  // Rescheduling

  /** The records of one node when the ids come from the front of the list of failed processes. */
  function RescheduleBlock(failed: seq<Rec>, ip: string, retry: int): (ps: seq<Rec>)
    ensures |ps| == |failed|
    ensures forall i :: 0 <= i < |failed| ==> ps[i] == Rec(failed[i].id, ip, RescheduleReady, retry)
  {
    seq(|failed|, i requires 0 <= i < |failed| => Rec(failed[i].id, ip, RescheduleReady, retry))
  }

  /** `nodes` nodes with `perNode` processes each, and one more on the first `remaining`, take `processes` in all. */
  ghost predicate Fits(nodes: nat, perNode: nat, remaining: nat, processes: nat) {
    remaining <= nodes && processes == nodes * perNode + remaining
  }

  /** Nodes take their load from the front of `failed`; a node finds fewer than its load only if the list ran out. */
  function Reassign(nodes: seq<Node>, perNode: nat, remaining: nat, failed: seq<Rec>, retry: int): seq<Rec>
    requires Fits(|nodes|, perNode, remaining, |failed|)
  {
    if nodes == [] then []
    else
      var k := Load(perNode, remaining);
      FitsNext(|nodes|, perNode, remaining, |failed|);
      RescheduleBlock(failed[..k], nodes[0].ip, retry)
        + Reassign(nodes[1..], perNode, if remaining > 0 then remaining - 1 else 0, failed[k..], retry)
  }

  lemma FitsNext(nodes: nat, perNode: nat, remaining: nat, processes: nat)
    requires nodes > 0 && Fits(nodes, perNode, remaining, processes)
    ensures Load(perNode, remaining) <= processes
    ensures Fits(nodes - 1, perNode, if remaining > 0 then remaining - 1 else 0, processes - Load(perNode, remaining))
  {
    assert nodes * perNode == perNode + (nodes - 1) * perNode;
  }

  lemma FitsStart(nodes: nat, processes: nat)
    requires nodes > 0
    ensures Fits(nodes, processes / nodes, processes % nodes, processes)
  {
  }

  /** The round robin over the failed processes. */
  function RoundRobinReassign(nodes: seq<Node>, failed: seq<Rec>, retry: int): seq<Rec>
    requires nodes != [] && failed != []
  {
    var u := Used(nodes, |failed|);
    FitsStart(u, |failed|);
    Reassign(nodes[..u], |failed| / u, |failed| % u, failed, retry)
  }

  /** The records a list comprehension over one status keeps. */
  function Filter(ps: seq<Rec>, st: Status): (r: seq<Rec>)
    ensures |r| == Count(ps, st)
  {
    if ps == [] then [] else (if ps[0].status == st then [ps[0]] else []) + Filter(ps[1..], st)
  }

  /** The four tables and counters a reschedule round works on. */
  datatype Round = Round(confirmed: seq<Node>, current: seq<Rec>, all: seq<Rec>, total: int)

  function StartRound(nodes: seq<Node>, failed: seq<Rec>, current: seq<Rec>, all: seq<Rec>, confirmed: seq<Node>,
                      total: int, retry: int): Round
    requires nodes != [] && failed != []
  {
    var current' := current + RoundRobinReassign(nodes, failed, retry);
    Round(confirmed, current', all + Filter(current', RescheduleReady), total)
  }

  /** Records of the confirmed node become ready. */
  function ReadyOn(ps: seq<Rec>, ip: string): (r: seq<Rec>)
    ensures |r| == |ps|
    ensures forall i :: 0 <= i < |ps| ==>
              r[i] == if ps[i].ip == ip && ps[i].status == RescheduleReady then ps[i].(status := Ready) else ps[i]
  {
    seq(|ps|, i requires 0 <= i < |ps| =>
      if ps[i].ip == ip && ps[i].status == RescheduleReady then ps[i].(status := Ready) else ps[i])
  }

  /** In the history every waiting record becomes ready, whatever its node. */
  function ReadyEverywhere(ps: seq<Rec>): (r: seq<Rec>)
    ensures |r| == |ps|
    ensures forall i :: 0 <= i < |ps| ==>
              r[i] == if ps[i].status == RescheduleReady then ps[i].(status := Ready) else ps[i]
  {
    seq(|ps|, i requires 0 <= i < |ps| => if ps[i].status == RescheduleReady then ps[i].(status := Ready) else ps[i])
  }

  /** The number of waiting records on one node. */
  function CountWaiting(ps: seq<Rec>, ip: string): (n: nat)
    ensures n <= |ps|
  {
    if ps == [] then 0
    else (if ps[0].ip == ip && ps[0].status == RescheduleReady then 1 else 0) + CountWaiting(ps[1..], ip)
  }

  lemma {:induction false} CountWaitingConcat(a: seq<Rec>, b: seq<Rec>, ip: string)
    ensures CountWaiting(a + b, ip) == CountWaiting(a, ip) + CountWaiting(b, ip)
  {
    if a == [] {
      assert a + b == b;
    } else {
      assert (a + b)[1..] == a[1..] + b;
      CountWaitingConcat(a[1..], b, ip);
    }
  }

  function ConfirmInRound(r: Round, n: Node): Round {
    Round(r.confirmed + [Node(n.nid, n.ip, n.region, NodeRunning)],
          ReadyOn(r.current, n.ip), ReadyEverywhere(r.all), r.total + CountWaiting(r.current, n.ip))
  }

  function PollOne(r: Round, n: Node, answers: set<string>): Round {
    if IsNew(n, answers, r.confirmed) then ConfirmInRound(r, n) else r
  }

  /** One completion poll of a reschedule round. */
  function PollRound(nodes: seq<Node>, answers: set<string>, r: Round): Round
    decreases |nodes|
  {
    if nodes == [] then r else PollRound(nodes[1..], answers, PollOne(r, nodes[0], answers))
  }
}

/** What the passes over the process tables do, seen as a whole: launching and polling act record by record, the
  two tables move together, and the list of finished processes grows by exactly the processes that completed. */
module TableLemmas {
  import opened Records
  import opened JobState

  /** No record of `pre` is a ready record with an id of `ps`. */
  ghost predicate NoReadyClash(pre: seq<Rec>, ps: seq<Rec>) {
    forall i, j :: 0 <= i < |pre| && 0 <= j < |ps| ==> !(pre[i].id == ps[j].id && pre[i].status == Ready)
  }

  lemma Assoc(a: seq<Rec>, b: seq<Rec>, c: seq<Rec>)
    ensures a + (b + c) == (a + b) + c
  {
  }

  /** The first ready record with the id is the one at the seam. */
  lemma {:induction false} MarkLaunchedAt(pre: seq<Rec>, p: Rec, rest: seq<Rec>)
    requires p.status == Ready && forall i :: 0 <= i < |pre| ==> !(pre[i].id == p.id && pre[i].status == Ready)
    ensures MarkLaunched(pre + ([p] + rest), p.id) == pre + ([p.(status := Running)] + rest)
  {
    var all := pre + ([p] + rest);
    if pre == [] {
      assert all == [p] + rest;
      assert all[1..] == rest;
      assert pre + ([p.(status := Running)] + rest) == [p.(status := Running)] + rest;
    } else {
      assert all[0] == pre[0] && all[1..] == pre[1..] + ([p] + rest);
      MarkLaunchedAt(pre[1..], p, rest);
      Assoc([pre[0]], pre[1..], [p.(status := Running)] + rest);
      assert [pre[0]] + pre[1..] == pre;
    }
  }

  lemma ClashStep(pre: seq<Rec>, ps: seq<Rec>, launched: set<nat>)
    requires ps != [] && DistinctIds(ps) && NoReadyClash(pre, ps)
    ensures DistinctIds(ps[1..]) && NoReadyClash(pre + [LaunchOne(ps[0], launched)], ps[1..])
    ensures forall i :: 0 <= i < |pre| ==> !(pre[i].id == ps[0].id && pre[i].status == Ready)
  {
    var pre' := pre + [LaunchOne(ps[0], launched)];
    forall i, j | 0 <= i < |pre'| && 0 <= j < |ps[1..]|
      ensures !(pre'[i].id == ps[1..][j].id && pre'[i].status == Ready)
    {
      assert ps[1..][j] == ps[j + 1];
    }
  }

  lemma LaunchCurrentStep(ps: seq<Rec>, launched: set<nat>)
    requires ps != []
    ensures LaunchCurrent(ps, launched) == [LaunchOne(ps[0], launched)] + LaunchCurrent(ps[1..], launched)
  {
  }

  /** Launching keeps the history in step with the current table: behind a prefix that holds no ready record
    with one of the ids, the history changes exactly as the current table does. */
  lemma {:induction false} LaunchAllSuffix(pre: seq<Rec>, ps: seq<Rec>, launched: set<nat>)
    requires DistinctIds(ps) && NoReadyClash(pre, ps)
    ensures LaunchAll(ps, launched, pre + ps) == pre + LaunchCurrent(ps, launched)
    decreases |ps|
  {
    if ps == [] {
      assert pre + ps == pre && pre + LaunchCurrent(ps, launched) == pre;
    } else {
      ClashStep(pre, ps, launched);
      LaunchCurrentStep(ps, launched);
      hide LaunchCurrent, NoReadyClash, DistinctIds;
      var p, rest := ps[0], ps[1..];
      var p' := LaunchOne(p, launched);
      assert ps == [p] + rest;
      if p.status == Ready && p.id in launched {
        MarkLaunchedAt(pre, p, rest);
      }
      assert LaunchAll(ps, launched, pre + ps) == LaunchAll(rest, launched, pre + ([p'] + rest));
      Assoc(pre, [p'], rest);
      LaunchAllSuffix(pre + [p'], rest, launched);
      Assoc(pre, [p'], LaunchCurrent(rest, launched));
    }
  }

  /** Complete the running records whose ids are in a set. */
  function CompleteSet(ps: seq<Rec>, ids: set<nat>): (r: seq<Rec>)
    ensures |r| == |ps|
    ensures forall i :: 0 <= i < |ps| ==>
              r[i] == if ps[i].id in ids && ps[i].status == Running then ps[i].(status := Completed) else ps[i]
  {
    seq(|ps|, i requires 0 <= i < |ps| =>
      if ps[i].id in ids && ps[i].status == Running then ps[i].(status := Completed) else ps[i])
  }

  /** The polled processes that report, as they enter the list of finished processes. */
  function Reported(polled: seq<Rec>, finished: set<nat>): seq<Rec>
  {
    if polled == [] then []
    else (if polled[0].id in finished then [polled[0].(status := Completed)] else []) + Reported(polled[1..], finished)
  }

  function ReportedIds(polled: seq<Rec>, finished: set<nat>): set<nat> {
    set i | 0 <= i < |polled| && polled[i].id in finished :: polled[i].id
  }

  function Together(t: Tables, polled: seq<Rec>, finished: set<nat>): Tables {
    var ids := ReportedIds(polled, finished);
    Tables(CompleteSet(t.current, ids), CompleteSet(t.all, ids), CompleteSet(t.executed, ids),
           t.finished + Reported(polled, finished))
  }

  lemma NewToFinished(t: Tables, polled: seq<Rec>, finished: set<nat>)
    requires polled != [] && DistinctIds(polled)
    requires forall i :: 0 <= i < |polled| ==> polled[i].id !in Ids(t.finished)
    ensures DistinctIds(polled[1..])
    ensures forall i :: 0 <= i < |polled[1..]| ==> polled[1..][i].id !in Ids(Poll(t, polled[0], finished).finished)
  {
    var rest, f := polled[1..], Poll(t, polled[0], finished).finished;
    forall j | 0 <= j < |rest| ensures rest[j].id !in Ids(f) {
      assert rest[j] == polled[j + 1];
      forall k | 0 <= k < |f| ensures f[k].id != rest[j].id {
        if k < |t.finished| { assert f[k].id == Ids(t.finished)[k]; }
      }
    }
  }

  /** One poll followed by the rest of the pass, in one piece. */
  lemma PollTogether(t: Tables, polled: seq<Rec>, finished: set<nat>)
    requires polled != [] && polled[0].id !in Ids(t.finished)
    ensures Together(Poll(t, polled[0], finished), polled[1..], finished) == Together(t, polled, finished)
  {
    var p, rest := polled[0], polled[1..];
    ReportedIdsStep(polled, finished);
    if p.id in finished {
      var ids' := ReportedIds(rest, finished);
      CompleteTwice(t.current, p.id, ids');
      CompleteTwice(t.all, p.id, ids');
      CompleteTwice(t.executed, p.id, ids');
      Assoc(t.finished, [p.(status := Completed)], Reported(rest, finished));
    }
  }

  /** A whole pass without failures, in one piece. */
  lemma {:induction false} PollAllTogether(t: Tables, polled: seq<Rec>, finished: set<nat>)
    requires DistinctIds(polled)
    requires forall i :: 0 <= i < |polled| ==> polled[i].id !in Ids(t.finished)
    ensures PollAll(t, polled, finished) == Together(t, polled, finished)
    decreases |polled|
  {
    if polled == [] {
      assert CompleteSet(t.current, {}) == t.current && CompleteSet(t.all, {}) == t.all;
      assert CompleteSet(t.executed, {}) == t.executed;
      assert t.finished + [] == t.finished;
    } else {
      NewToFinished(t, polled, finished);
      PollAllTogether(Poll(t, polled[0], finished), polled[1..], finished);
      PollTogether(t, polled, finished);
    }
  }

  lemma ReportedIdsStep(polled: seq<Rec>, finished: set<nat>)
    requires polled != []
    ensures ReportedIds(polled, finished)
         == (if polled[0].id in finished then {polled[0].id} else {}) + ReportedIds(polled[1..], finished)
  {
    forall x | x in ReportedIds(polled, finished)
      ensures x in (if polled[0].id in finished then {polled[0].id} else {}) + ReportedIds(polled[1..], finished)
    {
      var i :| 0 <= i < |polled| && polled[i].id in finished && polled[i].id == x;
      if i > 0 { assert polled[1..][i - 1] == polled[i]; }
    }
    forall x | x in ReportedIds(polled[1..], finished) ensures x in ReportedIds(polled, finished) {
      var i :| 0 <= i < |polled[1..]| && polled[1..][i].id in finished && polled[1..][i].id == x;
      assert polled[i + 1] == polled[1..][i];
    }
  }

  lemma CompleteTwice(ps: seq<Rec>, id: nat, ids: set<nat>)
    ensures CompleteSet(MarkCompleted(ps, id), ids) == CompleteSet(ps, {id} + ids)
  {
  }

  lemma {:induction false} RunningRecsAre(ps: seq<Rec>)
    ensures forall p :: p in RunningRecs(ps) <==> p in ps && p.status == Running
    ensures DistinctIds(ps) ==> DistinctIds(RunningRecs(ps))
  {
    if ps != [] {
      var rest := RunningRecs(ps[1..]);
      RunningRecsAre(ps[1..]);
      assert ps == [ps[0]] + ps[1..];
      if DistinctIds(ps) {
        forall i, j | 0 <= i < j < |RunningRecs(ps)| ensures RunningRecs(ps)[i].id != RunningRecs(ps)[j].id {
          if i == 0 && ps[0].status == Running {
            assert RunningRecs(ps)[j] == rest[j - 1] && rest[j - 1] in rest;
            var k :| 0 <= k < |ps[1..]| && ps[1..][k] == rest[j - 1];
            assert ps[k + 1] == rest[j - 1];
          }
        }
      }
    }
  }

  /** The processes a pass reports are the ones by which its completed count grows. */
  lemma {:induction false} ReportedCount(ps: seq<Rec>, finished: set<nat>)
    ensures Count(CompleteSet(ps, finished), Completed) == Count(ps, Completed) + |Reported(RunningRecs(ps), finished)|
    ensures Count(CompleteSet(ps, finished), Running) == Count(ps, Running) - |Reported(RunningRecs(ps), finished)|
  {
    if ps != [] {
      ReportedCount(ps[1..], finished);
      assert CompleteSet(ps, finished)[1..] == CompleteSet(ps[1..], finished);
      if ps[0].status == Running {
        assert RunningRecs(ps)[0] == ps[0] && RunningRecs(ps)[1..] == RunningRecs(ps[1..]);
      } else {
        assert RunningRecs(ps) == RunningRecs(ps[1..]);
      }
    }
  }

  lemma {:induction false} ReportedAre(polled: seq<Rec>, finished: set<nat>)
    ensures forall q :: q in Reported(polled, finished) <==>
              exists p :: p in polled && p.id in finished && q == p.(status := Completed)
  {
    if polled != [] {
      ReportedAre(polled[1..], finished);
      assert polled == [polled[0]] + polled[1..];
    }
  }

  /** Restricting the ids to those of polled records changes nothing on the table they were polled from. */
  lemma CompleteReported(ps: seq<Rec>, finished: set<nat>)
    ensures CompleteSet(ps, ReportedIds(RunningRecs(ps), finished)) == CompleteSet(ps, finished)
  {
    RunningRecsAre(ps);
    var ids := ReportedIds(RunningRecs(ps), finished);
    forall i | 0 <= i < |ps| ensures CompleteSet(ps, ids)[i] == CompleteSet(ps, finished)[i] {
      if ps[i].status == Running && ps[i].id in finished {
        assert ps[i] in RunningRecs(ps);
        var k :| 0 <= k < |RunningRecs(ps)| && RunningRecs(ps)[k] == ps[i];
        assert ps[i].id in ids;
      }
    }
  }
}

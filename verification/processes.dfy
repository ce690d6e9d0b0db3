/** Process records as the objects a stage holds while it runs. */
module Processes {
  import opened Records

  class Process {
    const id: nat
    const ip: string
    var status: Status
    var retryLeft: int

    constructor (r: Rec)
      ensures Value() == r
    {
      id, ip, status, retryLeft := r.id, r.ip, r.status, r.retry;
    }

    function Value(): Rec
      reads this
    {
      Rec(id, ip, status, retryLeft)
    }
  }

  /** What is written out when a list of records is stored. */
  function Values(ps: seq<Process>): (r: seq<Rec>)
    reads ps
    ensures |r| == |ps|
    ensures forall i :: 0 <= i < |ps| ==> r[i] == ps[i].Value()
  {
    seq(|ps|, i requires 0 <= i < |ps| reads ps => ps[i].Value())
  }

  ghost predicate Distinct(ps: seq<Process>) {
    forall i, j :: 0 <= i < j < |ps| ==> ps[i] != ps[j]
  }

  /** Reading a stored list back: one new object a record. */
  method Load(rs: seq<Rec>) returns (ps: seq<Process>)
    ensures Values(ps) == rs && Distinct(ps)
    ensures forall p :: p in ps ==> fresh(p)
  {
    ps := [];
    for i := 0 to |rs|
      invariant |ps| == i && Distinct(ps)
      invariant forall p :: p in ps ==> fresh(p)
      invariant Values(ps) == rs[..i]
    {
      var p := new Process(rs[i]);
      ps := ps + [p];
    }
  }

  /** The objects a list of lists holds. */
  function Objects(lists: seq<seq<Process>>): set<Process> {
    set i, j | 0 <= i < |lists| && 0 <= j < |lists[i]| :: lists[i][j]
  }
}

/** The execute stage: uploading one variation of the input to each scheduled process, and launching. */
module ExecuteStage {
  import opened Records
  import opened Processes
  import opened JobState
  import opened TableLemmas
  import Sweep

  ghost predicate Disjoint(a: seq<Process>, b: seq<Process>) {
    forall i, j :: 0 <= i < |a| && 0 <= j < |b| ==> a[i] != b[j]
  }

  ghost predicate HasProcess(ps: seq<Process>, c: int) {
    exists i :: 0 <= i < |ps| && ps[i].id == c
  }

  ghost predicate AllHave(ps: seq<Process>, first: int, count: nat) {
    forall c :: first <= c < first + count ==> HasProcess(ps, c)
  }

  /** What is written for the variations of one input directory: entry `n` goes to process `first + n` and is the
    variation with that counter. */
  ghost predicate Uploaded(ups: seq<(nat, Sweep.Context)>, sweep: Sweep.RangeMap, values: Sweep.Context, first: int)
  {
    && |ups| <= Sweep.Size(Sweep.Ranges(sweep))
    && forall n :: 0 <= n < |ups| ==> ups[n].0 == first + n && Sweep.ContextAt(ups[n].1, sweep, values, first, n)
  }

  /** What is written for all input directories, one after the other. */
  ghost predicate UploadedAll(ups: seq<(nat, Sweep.Context)>, sweep: Sweep.RangeMap, values: seq<Sweep.Context>,
                          first: int)
  {
    && |ups| == |values| * Sweep.Size(Sweep.Ranges(sweep))
    && forall d :: 0 <= d < |values| ==> UploadedFrom(ups, sweep, values, first, d)
  }

  ghost predicate UploadedFrom(ups: seq<(nat, Sweep.Context)>, sweep: Sweep.RangeMap, values: seq<Sweep.Context>,
                          first: int, d: nat)
    requires d < |values|
  {
    var size := Sweep.Size(Sweep.Ranges(sweep));
    && d * size + size <= |ups|
    && Uploaded(ups[d * size..d * size + size], sweep, values[d], first + d * size)
  }

  lemma UploadedOne(ups: seq<(nat, Sweep.Context)>, sweep: Sweep.RangeMap, values: Sweep.Context, first: int, id: nat,
                    c: Sweep.Context)
    requires |ups| < Sweep.Size(Sweep.Ranges(sweep)) && Uploaded(ups, sweep, values, first)
    requires id == first + |ups| && Sweep.ContextAt(c, sweep, values, first, |ups|)
    ensures Uploaded(ups + [(id, c)], sweep, values, first)
  {
    hide Sweep.ContextAt, Sweep.Size;
  }

  lemma NothingYet(ps: seq<Process>, sweep: Sweep.RangeMap, values: Sweep.Context, first: int)
    ensures Uploaded([], sweep, values, first) && AllHave(ps, first, 0)
  {
  }

  lemma FoundNext(ps: seq<Process>, first: int, n: nat, proc: Option<Process>)
    requires AllHave(ps, first, n)
    requires proc.Some? ==> proc.value in ps && proc.value.id == first + n
    requires proc.None? ==> forall p :: p in ps ==> p.id != first + n
    ensures proc.Some? ==> AllHave(ps, first, n + 1)
    ensures proc.None? ==> forall m: nat :: m > n ==> !AllHave(ps, first, m)
  {
    if proc.Some? {
      var i :| 0 <= i < |ps| && ps[i] == proc.value;
      assert HasProcess(ps, first + n);
    } else {
      assert !HasProcess(ps, first + n);
    }
  }

  lemma NoneYet(ps: seq<Process>, sweep: Sweep.RangeMap, values: seq<Sweep.Context>, first: int)
    ensures UploadedAll([], sweep, values[..0], first) && AllHave(ps, first, 0)
  {
  }

  lemma UploadedNext(ups: seq<(nat, Sweep.Context)>, more: seq<(nat, Sweep.Context)>, sweep: Sweep.RangeMap,
                     values: seq<Sweep.Context>, first: int, d: nat)
    requires d < |values| && UploadedAll(ups, sweep, values[..d], first)
    requires |more| == Sweep.Size(Sweep.Ranges(sweep)) && Uploaded(more, sweep, values[d], first + d * |more|)
    ensures UploadedAll(ups + more, sweep, values[..d + 1], first)
  {
    var size := |more|;
    hide Sweep.Size, Uploaded;
    assert (d + 1) * size == d * size + size;
    var all, dirs := ups + more, values[..d + 1];
    forall i | 0 <= i < |dirs| ensures UploadedFrom(all, sweep, dirs, first, i) {
      if i < d {
        assert UploadedFrom(ups, sweep, values[..d], first, i);
        assert all[i * size..i * size + size] == ups[i * size..i * size + size];
      } else {
        assert all[d * size..d * size + size] == more;
      }
    }
  }

  /** A block of counters is covered, and so are all blocks up to it, or some counter is not covered at all. */
  lemma AllHaveNext(ps: seq<Process>, first: int, d: nat, size: nat, dirs: nat)
    requires d < dirs && AllHave(ps, first, d * size)
    ensures AllHave(ps, first + d * size, size) ==> AllHave(ps, first, (d + 1) * size)
    ensures !AllHave(ps, first + d * size, size) ==> !AllHave(ps, first, size * dirs)
    ensures (d + 1) * size == d * size + size
  {
    assert (d + 1) * size == d * size + size;
    if !AllHave(ps, first + d * size, size) {
      var c :| first + d * size <= c < first + d * size + size && !HasProcess(ps, c);
      Sweep.MulMono(d + 1, dirs, size);
      assert dirs * size == size * dirs;
    }
  }

  /** Searching the ready processes is searching the table for ready ones. */
  lemma AllHaveTable(table: seq<Process>, ready: seq<Process>, first: int, count: nat)
    requires forall p :: p in ready <==> p in table && p.status == Ready
    ensures AllHave(ready, first, count) <==> CountersMatch(Values(table), first, count)
  {
    forall c: int ensures HasProcess(ready, c) <==> ReadyWithId(Values(table), c) {
      if HasProcess(ready, c) {
        var i :| 0 <= i < |ready| && ready[i].id == c;
        assert ready[i] in ready;
        var k :| 0 <= k < |table| && table[k] == ready[i];
        assert Values(table)[k].id == c;
      }
      if ReadyWithId(Values(table), c) {
        var k :| 0 <= k < |table| && Values(table)[k].status == Ready && Values(table)[k].id == c;
        assert table[k] in ready;
      }
    }
  }

  class Execute {
    var scheduleProcs: seq<Process>
    var allProcesses: seq<Process>
    var execProcs: seq<Process>
    var initialNumbfile: int

    constructor () {
      scheduleProcs, allProcesses, execProcs, initialNumbfile := [], [], [], 0;
    }

    ghost predicate Apart()
      reads this
    {
      && Distinct(scheduleProcs) && Distinct(allProcesses)
      && Disjoint(scheduleProcs, allProcesses)
      && Disjoint(execProcs, scheduleProcs) && Disjoint(execProcs, allProcesses)
    }

    /** The first ready record with the id becomes running. */
    method MarkFirst(ps: seq<Process>, id: nat)
      requires Distinct(ps)
      modifies ps`status
      ensures Values(ps) == MarkLaunched(old(Values(ps)), id)
    {
      for i := 0 to |ps|
        invariant forall j :: 0 <= j < |ps| ==> ps[j].Value() == old(ps[j].Value())
        invariant forall j :: 0 <= j < i ==> !(ps[j].id == id && ps[j].status == Ready)
      {
        if ps[i].id == id && ps[i].status == Ready {
          ghost var v := old(Values(ps));
          MarksAt(v, i);
          ps[i].status := Running;
          return;
        }
      }
      MarksNone(old(Values(ps)), id);
      assert Values(ps) == old(Values(ps));
    }

    static lemma MarksAt(v: seq<Rec>, i: nat)
      requires i < |v| && v[i].status == Ready
      requires forall j :: 0 <= j < i ==> !(v[j].id == v[i].id && v[j].status == Ready)
      ensures MarkLaunched(v, v[i].id) == v[i := v[i].(status := Running)]
    {
      hide MarkLaunched;
      var x := v[i].(status := Running);
      MarkLaunchedAt(v[..i], v[i], v[i + 1..]);
      assert v == v[..i] + ([v[i]] + v[i + 1..]);
      assert v[i := x] == v[..i] + ([x] + v[i + 1..]);
    }

    static lemma {:induction false} MarksNone(v: seq<Rec>, id: nat)
      requires forall j :: 0 <= j < |v| ==> !(v[j].id == id && v[j].status == Ready)
      ensures MarkLaunched(v, id) == v
    {
      if v != [] {
        MarksNone(v[1..], id);
      }
    }

    static lemma {:induction false} NotFailedConcat(a: seq<Rec>, b: seq<Rec>)
      ensures NotFailed(a + b) == NotFailed(a) + NotFailed(b)
    {
      if a == [] {
        assert a + b == b;
      } else {
        assert (a + b)[1..] == a[1..] + b;
        NotFailedConcat(a[1..], b);
      }
    }

    static lemma NotFailedSnoc(v: seq<Rec>, i: nat)
      requires i < |v|
      ensures NotFailed(v[..i + 1]) == NotFailed(v[..i]) + if v[i].status != Failed then [v[i]] else []
    {
      assert v[..i + 1] == v[..i] + [v[i]];
      NotFailedConcat(v[..i], [v[i]]);
      assert [v[i]][1..] == [];
    }

    method DropFailed()
      requires Apart()
      modifies this`execProcs
      ensures Apart()
      ensures Values(execProcs) == old(NotFailed(Values(execProcs)))
    {
      var kept: seq<Process> := [];
      for i := 0 to |execProcs|
        invariant execProcs == old(execProcs)
        invariant Values(kept) == NotFailed(Values(execProcs)[..i])
        invariant Disjoint(kept, scheduleProcs) && Disjoint(kept, allProcesses)
      {
        NotFailedSnoc(Values(execProcs), i);
        if execProcs[i].status != Failed {
          kept := kept + [execProcs[i]];
        }
      }
      assert Values(execProcs)[..|execProcs|] == Values(execProcs);
      execProcs := kept;
    }

    /** One process: skipped unless it is ready, left alone when its launch fails. */
    method LaunchAt(k: nat, launched: set<nat>)
      requires Apart() && k < |scheduleProcs|
      modifies scheduleProcs`status, allProcesses`status
      ensures Values(scheduleProcs)
           == old(Values(scheduleProcs))[k := LaunchOne(old(scheduleProcs[k].Value()), launched)]
      ensures var p := old(scheduleProcs[k].Value());
              Values(allProcesses) == if p.status == Ready && p.id in launched
                  then MarkLaunched(old(Values(allProcesses)), p.id)
                                      else old(Values(allProcesses))
    {
      hide MarkLaunched;
      var proc := scheduleProcs[k];
      if proc.status == Ready && proc.id in launched {
        proc.status := Running;
        assert forall j :: 0 <= j < |allProcesses| ==> allProcesses[j].Value() == old(allProcesses[j].Value());
        assert Values(allProcesses) == old(Values(allProcesses));
        ghost var v := Values(scheduleProcs);
        MarkFirst(allProcesses, proc.id);
        assert forall j :: 0 <= j < |scheduleProcs| ==> scheduleProcs[j].Value() == v[j];
      }
    }

    /** The first `k` processes of a table that was `v` have been tried; `was` is what the history was. */
    ghost predicate LaunchedUpTo(v: seq<Rec>, k: nat, launched: set<nat>, was: seq<Rec>)
      requires k <= |v|
      reads this, scheduleProcs, allProcesses
    {
      && Apart() && |scheduleProcs| == |v|
      && Values(scheduleProcs) == LaunchCurrent(v[..k], launched) + v[k..]
      && LaunchAll(v[k..], launched, Values(allProcesses)) == LaunchAll(v, launched, was)
    }

    method LaunchNext(k: nat, launched: set<nat>, ghost v: seq<Rec>, ghost was: seq<Rec>)
      requires k < |v| && LaunchedUpTo(v, k, launched, was)
      modifies scheduleProcs`status, allProcesses`status
      ensures LaunchedUpTo(v, k + 1, launched, was)
    {
      hide MarkLaunched, Values, LaunchAll, LaunchCurrent, LaunchOne, Apart;
      ghost var now, all := Values(scheduleProcs), Values(allProcesses);
      LaunchStep(v, k, launched, now, all);
      assert scheduleProcs[k].Value() == v[k] by { ValueIn(scheduleProcs, k); }
      LaunchAt(k, launched);
    }

    static lemma ValueIn(ps: seq<Process>, k: nat)
      requires k < |ps|
      ensures |Values(ps)| == |ps| && Values(ps)[k] == ps[k].Value()
    {
    }

    method LaunchEach(launched: set<nat>)
      requires Apart()
      modifies scheduleProcs`status, allProcesses`status
      ensures Values(scheduleProcs) == LaunchCurrent(old(Values(scheduleProcs)), launched)
      ensures Values(allProcesses) == LaunchAll(old(Values(scheduleProcs)), launched, old(Values(allProcesses)))
    {
      hide Values, LaunchAll, LaunchCurrent, LaunchedUpTo, Apart;
      ghost var v, was := Values(scheduleProcs), Values(allProcesses);
      LaunchBegins(launched);
      for k := 0 to |scheduleProcs|
        invariant |v| == |scheduleProcs| && LaunchedUpTo(v, k, launched, was)
      {
        LaunchNext(k, launched, v, was);
      }
      LaunchEnds(v, launched, was);
    }

    lemma LaunchBegins(launched: set<nat>)
      requires Apart()
      ensures |Values(scheduleProcs)| == |scheduleProcs|
      ensures LaunchedUpTo(Values(scheduleProcs), 0, launched, Values(allProcesses))
    {
      hide Apart, LaunchAll;
      LaunchStart(Values(scheduleProcs), launched);
    }

    lemma LaunchEnds(v: seq<Rec>, launched: set<nat>, was: seq<Rec>)
      requires LaunchedUpTo(v, |v|, launched, was)
      ensures Values(scheduleProcs) == LaunchCurrent(v, launched) && Values(allProcesses) == LaunchAll(v, launched, was)
    {
      hide Apart, LaunchAll, LaunchCurrent, Values;
      LaunchStop(v, launched, Values(scheduleProcs), Values(allProcesses));
    }

    static lemma LaunchStart(v: seq<Rec>, launched: set<nat>)
      ensures v == LaunchCurrent(v[..0], launched) + v[0..] && v[0..] == v
    {
    }

    static lemma LaunchStep(v: seq<Rec>, k: nat, launched: set<nat>, now: seq<Rec>, all: seq<Rec>)
      requires k < |v| && now == LaunchCurrent(v[..k], launched) + v[k..]
      ensures now[k] == v[k] && now[k := LaunchOne(v[k], launched)] == LaunchCurrent(v[..k + 1], launched) + v[k + 1..]
      ensures LaunchAll(v[k..], launched, all)
           == LaunchAll(v[k + 1..], launched,
                        if v[k].status == Ready && v[k].id in launched then MarkLaunched(all, v[k].id) else all)
    {
      assert v[k..][0] == v[k] && v[k..][1..] == v[k + 1..];
      assert LaunchCurrent(v[..k + 1], launched) == LaunchCurrent(v[..k], launched) + [LaunchOne(v[k], launched)];
    }

    static lemma LaunchStop(v: seq<Rec>, launched: set<nat>, now: seq<Rec>, all: seq<Rec>)
      requires now == LaunchCurrent(v[..|v|], launched) + v[|v|..]
      ensures now == LaunchCurrent(v, launched) && LaunchAll(v[|v|..], launched, all) == all
    {
      assert v[..|v|] == v;
    }

    /** One launch loop over the current table; `launched` are the processes whose launch succeeds. */
    method RunMultiTask(launched: set<nat>)
      requires Apart()
      modifies this`execProcs, scheduleProcs`status, allProcesses`status
      ensures Values(execProcs) == old(NotFailed(Values(execProcs)))
      ensures Values(scheduleProcs) == LaunchCurrent(old(Values(scheduleProcs)), launched)
      ensures Values(allProcesses) == LaunchAll(old(Values(scheduleProcs)), launched, old(Values(allProcesses)))
    {
      hide NotFailed, LaunchAll, LaunchCurrent;
      DropFailed();
      LaunchEach(launched);
    }

    // Uploading

    /** The process a generated run counter belongs to. */
    method FindProcess(processes: seq<Process>, counter: int) returns (proc: Option<Process>)
      ensures proc.Some? ==> proc.value in processes && proc.value.id == counter
      ensures proc.None? ==> forall p :: p in processes ==> p.id != counter
    {
      for i := 0 to |processes|
        invariant forall p :: p in processes[..i] ==> p.id != counter
      {
        if processes[i].id == counter {
          return Some(processes[i]);
        }
      }
      assert processes[..|processes|] == processes;
      return None;
    }

    method ReadyProcesses() returns (r: seq<Process>)
      ensures forall p :: p in r <==> p in scheduleProcs && p.status == Ready
    {
      r := [];
      for i := 0 to |scheduleProcs|
        invariant forall p :: p in r <==> p in scheduleProcs[..i] && p.status == Ready
      {
        if scheduleProcs[i].status == Ready {
          r := r + [scheduleProcs[i]];
        }
      }
      assert scheduleProcs[..|scheduleProcs|] == scheduleProcs;
    }

    /** One input directory: its variations are generated from the next counter on, and each is written to the
      process whose id is its counter; a counter without a process ends the stage. */
    method UploadInputDirVariations(processes: seq<Process>, sweep: Sweep.RangeMap, values: Sweep.Context)
        returns (raised: bool, ups: seq<(nat, Sweep.Context)>)
      requires Sweep.DistinctKeys(sweep)
      modifies this`initialNumbfile
      ensures initialNumbfile == old(initialNumbfile) + Sweep.Size(Sweep.Ranges(sweep))
      ensures raised <==> !AllHave(processes, old(initialNumbfile), Sweep.Size(Sweep.Ranges(sweep)))
      ensures !raised ==> |ups| == Sweep.Size(Sweep.Ranges(sweep)) && Uploaded(ups, sweep, values, old(initialNumbfile))
    {
      var contexts := Sweep.GetVariationContexts([sweep], values, initialNumbfile);
      ghost var size, first := Sweep.Size(Sweep.Ranges(sweep)), initialNumbfile;
      Sweep.EnumeratesOne(sweep, values, first, contexts);
      initialNumbfile := initialNumbfile + |contexts|;
      hide Sweep.ContextAt, Sweep.Size, Sweep.EnumeratesAll, Uploaded, AllHave, HasProcess;
      raised, ups := false, [];
      NothingYet(processes, sweep, values, first);
      for n := 0 to |contexts|
        invariant |ups| == n && Uploaded(ups, sweep, values, first) && AllHave(processes, first, n)
        invariant initialNumbfile == first + |contexts|
      {
        var context := contexts[n];
        Sweep.HasCounter(context, sweep, values, first, n);
        var proc := FindProcess(processes, context["run_counter"].n);
        FoundNext(processes, first, n, proc);
        if proc.None? {
          return true, ups;
        }
        UploadedOne(ups, sweep, values, first, proc.value.id, context);
        ups := ups + [(proc.value.id, context)];
      }
    }

    /** All input directories in order; `values` are their template values. */
    method PrepareInputs(sweep: Sweep.RangeMap, values: seq<Sweep.Context>)
        returns (raised: bool, ups: seq<(nat, Sweep.Context)>)
      requires Sweep.DistinctKeys(sweep)
      modifies this`initialNumbfile
      ensures raised <==>
                (values == [] || !CountersMatch(Values(scheduleProcs), old(initialNumbfile),
                                                Sweep.Size(Sweep.Ranges(sweep)) * |values|))
      ensures !raised ==> initialNumbfile == old(initialNumbfile) + Sweep.Size(Sweep.Ranges(sweep)) * |values|
      ensures !raised ==> UploadedAll(ups, sweep, values, old(initialNumbfile))
    {
      hide Sweep.Size, Uploaded, AllHave, UploadedAll, CountersMatch, Values;
      var processes := ReadyProcesses();
      ghost var size, first := Sweep.Size(Sweep.Ranges(sweep)), initialNumbfile;
      AllHaveTable(scheduleProcs, processes, first, size * |values|);
      if values == [] {
        return true, [];
      }
      raised, ups := false, [];
      NoneYet(processes, sweep, values, first);
      for d := 0 to |values|
        invariant initialNumbfile == first + d * size
        invariant UploadedAll(ups, sweep, values[..d], first) && AllHave(processes, first, d * size)
      {
        var more;
        raised, more := UploadInputDirVariations(processes, sweep, values[d]);
        AllHaveNext(processes, first, d, size, |values|);
        if raised {
          return;
        }
        UploadedNext(ups, more, sweep, values, first, d);
        ups := ups + more;
      }
      assert values[..|values|] == values;
    }

    // The stage

    ghost predicate LoadedFrom(s: Settings)
      reads this, scheduleProcs, allProcesses, execProcs
    {
      && Apart()
      && Values(scheduleProcs) == s.currentProcesses.GetOr([])
      && Values(allProcesses) == s.allProcesses.GetOr([])
      && Values(execProcs) == s.executedProcs.GetOr([])
    }

    method LoadTables(current: seq<Rec>, all: seq<Rec>, executed: seq<Rec>)
      modifies this`scheduleProcs, this`allProcesses, this`execProcs
      ensures Values(scheduleProcs) == current && Values(allProcesses) == all && Values(execProcs) == executed
      ensures Apart()
      ensures forall p :: p in scheduleProcs || p in allProcesses || p in execProcs ==> fresh(p)
    {
      var a := Load(all);
      label first:
      var c := Load(current);
      label second:
      var x := Load(executed);
      scheduleProcs, allProcesses, execProcs := c, a, x;
      forall i, j | 0 <= i < |c| && 0 <= j < |a| ensures c[i] != a[j] {
        assert a[j] in a && c[i] in c && fresh@first(c[i]);
      }
      forall i, j | 0 <= i < |x| && 0 <= j < |a| ensures x[i] != a[j] {
        assert a[j] in a && x[i] in x && fresh@second(x[i]);
      }
      forall i, j | 0 <= i < |x| && 0 <= j < |c| ensures x[i] != c[j] {
        assert c[j] in c && x[i] in x && fresh@second(x[i]);
      }
    }

    method IsTriggered(s: Settings) returns (triggered: bool)
      modifies this
      ensures triggered == ExecuteTriggered(s)
      ensures triggered ==> LoadedFrom(s)
      ensures triggered ==> forall p :: p in scheduleProcs || p in allProcesses || p in execProcs ==> fresh(p)
    {
      if s.scheduleCompleted.None? || s.allProcesses.None? {
        return false;
      }
      if s.scheduleCompleted.value == 0 {
        return false;
      }
      if s.currentProcesses.None? || |s.currentProcesses.value| == 0 {
        return false;
      }
      LoadTables(s.currentProcesses.value, s.allProcesses.value, s.executedProcs.GetOr([]));
      if s.executedProcs.Some? {
        return Count(s.currentProcesses.value, Ready) != 0;
      }
      return true;
    }

    /** The launch step in parts. */
    static lemma RunParts(job: Job, s: Settings, e: Env)
      requires ExecuteTriggered(s)
      ensures ExecuteRun(job, s, e).Raised? <==>
              && UploadsInputs(job, s)
              && (e.inputDirs == 0 || !CountersMatch(s.currentProcesses.value, s.initialNumbfile.GetOr(1),
                                                     TotalProcs(job, e)))
      ensures ExecuteRun(job, s, e).Ok? ==>
                var s' := ExecuteRun(job, s, e).s;
                && s'.currentProcesses == Some(LaunchCurrent(s.currentProcesses.value, e.launched))
                && s'.allProcesses == Some(LaunchAll(s.currentProcesses.value, e.launched, s.allProcesses.value))
                && s'.executedProcs == Some(NotFailed(s.executedProcs.GetOr([])))
                && s'.initialNumbfile ==
                     Some(s.initialNumbfile.GetOr(1) + if UploadsInputs(job, s) then TotalProcs(job, e) else 0)
    {
    }

    method Process(job: Job, s: Settings, e: Env, values: seq<Sweep.Context>)
        returns (raised: bool, ups: seq<(nat, Sweep.Context)>)
      requires ExecuteTriggered(s) && LoadedFrom(s)
      requires Sweep.DistinctKeys(e.sweep) && |values| == e.inputDirs
      modifies this`execProcs, this`initialNumbfile, scheduleProcs`status, allProcesses`status
      ensures raised <==> ExecuteRun(job, s, e).Raised?
      ensures !raised ==>
                var s' := ExecuteRun(job, s, e).s;
                && Values(scheduleProcs) == s'.currentProcesses.value && Values(allProcesses) == s'.allProcesses.value
                && Values(execProcs) == s'.executedProcs.value && initialNumbfile == s'.initialNumbfile.value
      ensures !raised && UploadsInputs(job, s) ==> UploadedAll(ups, e.sweep, values, s.initialNumbfile.GetOr(1))
    {
      hide LaunchAll, LaunchCurrent, CountersMatch, UploadedAll, Values, Sweep.Size, NotFailed, Count, ExecuteRun;
      RunParts(job, s, e);
      initialNumbfile := s.initialNumbfile.GetOr(1);
      raised, ups := false, [];
      if job.inputs && Count(Values(scheduleProcs), Failed) == 0 {
        raised, ups := PrepareInputs(e.sweep, values);
        if raised {
          return;
        }
      }
      RunMultiTask(e.launched);
    }

    method Output(s: Settings) returns (s': Settings)
      ensures s' == s.(executedProcs := Some(Values(execProcs)), currentProcesses := Some(Values(scheduleProcs)),
                       allProcesses := Some(Values(allProcesses)),
                       runsLeft := Some(Count(Values(scheduleProcs), Running)),
                       initialNumbfile := Some(initialNumbfile))
    {
      s' := s.(executedProcs := Some(Values(execProcs)), currentProcesses := Some(Values(scheduleProcs)),
               allProcesses := Some(Values(allProcesses)));
      s' := s'.(runsLeft := Some(Count(Values(scheduleProcs), Running)), initialNumbfile := Some(initialNumbfile));
    }

    /** The stage as the driver runs it; `values` are the template values of the input directories. */
    method Run(job: Job, s: Settings, e: Env, values: seq<Sweep.Context>)
        returns (triggered: bool, raised: bool, s': Settings, ups: seq<(nat, Sweep.Context)>)
      requires Sweep.DistinctKeys(e.sweep) && |values| == e.inputDirs
      modifies this
      ensures triggered == ExecuteTriggered(s)
      ensures triggered ==> (raised <==> ExecuteRun(job, s, e).Raised?)
      ensures triggered && !raised ==> ExecuteRun(job, s, e) == Ok(s')
      ensures triggered && !raised && UploadsInputs(job, s) ==>
                UploadedAll(ups, e.sweep, values, s.initialNumbfile.GetOr(1))
    {
      hide LaunchAll, LaunchCurrent, CountersMatch, UploadedAll, Values, Sweep.Size, NotFailed, Count;
      s', raised, ups := s, false, [];
      triggered := IsTriggered(s);
      if triggered {
        forall i | 0 <= i < |scheduleProcs| ensures fresh(scheduleProcs[i]) {
          assert scheduleProcs[i] in scheduleProcs;
        }
        forall i | 0 <= i < |allProcesses| ensures fresh(allProcesses[i]) {
          assert allProcesses[i] in allProcesses;
        }
        raised, ups := Process(job, s, e, values);
        if !raised {
          s' := Output(s);
        }
      }
    }
  }
}

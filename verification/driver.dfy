/** The periodic driver as Chiminey runs it: a pass over the stages of a context whose settings are rows of a store. */
module Driver {
  import opened Records
  import opened JobState
  import opened JobInvariant
  import opened JobSteps
  import opened JobRuns
  import opened WaitPass
  import opened SmallStages
  import ContextRows
  import Encoding
  import ExecuteStage
  import Keys
  import RunSettings
  import ScheduleStage
  import Sweep
  import WaitStage

  /** What the outside world answers beyond `Env`: details that no stored setting of a run depends on. */
  datatype Detail = Detail(
    values: seq<Sweep.Context>, // the template values of the input directories
    terminated: set<nat>,       // unreachable processes whose node is gone
    reliability: bool           // the job has the setting about rescheduling
  )

  ghost predicate Fits(e: Env, d: Detail) {
    Sweep.DistinctKeys(e.sweep) && |d.values| == e.inputDirs
  }

  function AnswerOf(e: Env, d: Detail): nat -> Answer {
    (id: nat) =>
      if id in e.unreachable then Unreachable(id in d.terminated)
      else if id in e.finished then Stopped
      else NotStopped
  }

  /** What the driver relies on whenever a stage is triggered. */
  lemma TriggeredFacts(s: Settings, st: Stage)
    requires Inv(s) && Triggered(st, s)
    ensures st == Wait ==>
              DistinctIds(s.currentProcesses.value) && FinishedAre(s.finishedNodes.GetOr([]), s.currentProcesses.value)
  {
    var ph :| InPhase(s, ph);
    PhaseTriggers(s, ph, st);
    if st == Wait {
      assert ph == Waiting;
      TableIds(s);
    }
  }

  /** The step of a stage does not touch the misspelt key. */
  lemma NotMisspelt(job: Job, st: Stage, s: Settings, e: Env)
    requires Triggered(st, s) && Run(job, st, s, e).Ok?
    ensures Run(job, st, s, e).s.scheduledStarted == s.scheduledStarted
  {
  }

  /** What is left behind by a failed pass has no influence on what a stage does. */
  lemma RunIgnores(job: Job, st: Stage, s: Settings, e: Env, attempt: Settings, written: set<Keys.Key>)
    requires Triggered(st, s)
    ensures Run(job, st, s, e.(attempt := attempt, written := written)) == Run(job, st, s, e)
    ensures FailsToStore(st, s, e.(attempt := attempt, written := written)) <==> FailsToStore(st, s, e)
  {
  }

  /** Two half-finished updates of a store are one. */
  lemma WrittenTwice(s: Settings, a: Settings, w: set<Keys.Key>, a': Settings, w': set<Keys.Key>)
    ensures PartlyWritten(PartlyWritten(s, a, w), a', w') == PartlyWritten(s, PartlyWritten(a, a', w'), w + w')
    ensures w == {} ==> PartlyWritten(PartlyWritten(s, a, w), a', w') == PartlyWritten(s, a', w')
    ensures OnlyWaitKeys(s, a') ==> OnlyWaitKeys(PartlyWritten(s, a, w), a')
  {
  }

  /** A pass in which no stage ran to its end marks the context deleted and leaves what a failed pass has written. */
  lemma NothingRan(job: Job, s: Settings, e: Env, order: seq<Stage>, attempt: Settings, written: set<Keys.Key>)
    requires Inv(s) && forall st :: st in order ==> !RunsThrough(job, st, s, e)
    requires written != {} ==> FailsToStore(Wait, s, e) && Wait in order
    ensures DriveFrom(job, s, s, e.(attempt := attempt, written := written), order)
         == Ctx(PartlyWritten(s, attempt, written), true)
  {
    var e' := e.(attempt := attempt, written := written);
    var ph :| InPhase(s, ph);
    DrivePass(job, s, s, ph, e', order);
    PhaseTriggers(s, ph, Wait);
    if StageOf(ph).Some? {
      PhaseTriggers(s, ph, StageOf(ph).value);
      RunIgnores(job, StageOf(ph).value, s, e, attempt, written);
    }
    hide Run, InPhase, DriveFrom, Triggered;
  }

  /** A pass in which a stage ran to its end stores what that stage writes. */
  lemma StageRan(job: Job, s: Settings, e: Env, order: seq<Stage>, i: nat, attempt: Settings)
    requires Inv(s) && i < |order| && Triggered(order[i], s) && Run(job, order[i], s, e).Ok?
    ensures DriveFrom(job, s, s, e.(attempt := attempt, written := {}), order) == Ctx(Run(job, order[i], s, e).s, false)
    ensures !FailsToStore(Wait, s, e)
    ensures Inv(Run(job, order[i], s, e).s)
    ensures Run(job, order[i], s, e).s.scheduledStarted == s.scheduledStarted
  {
    var ph :| InPhase(s, ph);
    DrivePass(job, s, s, ph, e.(attempt := attempt, written := {}), order);
    RunIgnores(job, order[i], s, e, attempt, {});
    NotMisspelt(job, order[i], s, e);
    PhaseTriggers(s, ph, order[i]);
    PhaseTriggers(s, ph, Wait);
    RunKeepsInv(job, s, ph, e, order[i]);
    assert order[i] == Wait ==> !FailsToStore(Wait, s, e);
    hide InPhase, DriveFrom, Run;
  }

  /** The stage is triggered and does not raise. */
  ghost predicate RunsThrough(job: Job, st: Stage, s: Settings, e: Env) {
    Triggered(st, s) && Run(job, st, s, e).Ok?
  }

  /** What a wait pass with a failed poll may hand to the store. */
  ghost predicate Attempted(s: Settings, attempt: Settings, e: Env, d: Detail) {
    WaitTriggered(s) && WaitStage.PassStored(s, attempt, AnswerOf(e, d))
  }

  /** None of the stages tried so far has run to its end. */
  ghost predicate NoneRan(job: Job, tried: seq<Stage>, s: Settings, e: Env, d: Detail,
                          attempt: Settings, written: set<Keys.Key>) {
    && Inv(s) && s.scheduledStarted.None?
    && (written != {} ==> FailsToStore(Wait, s, e) && Wait in tried)
    && (forall st :: st in tried ==> !RunsThrough(job, st, s, e))
    && (written != {} && Distinct(tried) ==> Attempted(s, attempt, e, d))
  }

  ghost predicate Distinct(order: seq<Stage>) {
    forall i, j :: 0 <= i < j < |order| ==> order[i] != order[j]
  }

  lemma OneMoreTried(tried: seq<Stage>, st: Stage)
    ensures (tried + [st])[|tried|] == st
    ensures Distinct(tried + [st]) ==> Distinct(tried) && st !in tried
  {
    var more := tried + [st];
    if Distinct(more) {
      forall i, j | 0 <= i < j < |tried| ensures tried[i] != tried[j] {
        assert more[i] == tried[i] && more[j] == tried[j];
      }
      forall i | 0 <= i < |tried| ensures tried[i] != st {
        assert more[i] == tried[i] && more[|tried|] == st;
      }
    }
  }

  /** One more attempt to store a failed pass. */
  lemma StillPartly(s: Settings, attempt: Settings, written: set<Keys.Key>, output: Settings, w: set<Keys.Key>)
      returns (attempt': Settings, written': set<Keys.Key>)
    ensures PartlyWritten(PartlyWritten(s, attempt, written), output, w) == PartlyWritten(s, attempt', written')
    ensures written == {} ==> attempt' == output
    ensures written' == written + w
  {
    WrittenTwice(s, attempt, written, output, w);
    attempt', written' := if written == {} then output else PartlyWritten(attempt, output, w), written + w;
  }

  class Context {
    const codec: Encoding.Codec
    const store: ContextRows.ContextStore
    var deleted: bool

    ghost predicate Valid()
      reads this, store
    {
      && Encoding.Faithful(codec) && Encoding.DeclaresStages(store.schemas)
      && ContextRows.Readable(store.schemas, store.rows)
    }

    /** What the stages read from the store. */
    ghost function Stored(): Settings
      requires Valid()
      reads this, store
    {
      Encoding.Decode(codec, ContextRows.ReadAll(store.schemas, store.rows))
    }

    constructor (codec: Encoding.Codec, schemas: ContextRows.Schemas)
      requires Encoding.Faithful(codec) && Encoding.DeclaresStages(schemas)
      ensures Valid() && Stored() == EMPTY && !deleted && fresh(store)
    {
      this.codec := codec;
      store := new ContextRows.ContextStore(schemas);
      deleted := false;
      Encoding.EmptyStore(codec, schemas);
      hide Encoding.Decode, Encoding.Faithful, Encoding.DeclaresStages, ContextRows.Readable;
    }

    /** A fresh stage object is tested and run on the settings. `None` when the stage is not triggered or its body
      raises. Otherwise the settings are those of the stage's step; or the stage is a wait pass with a failed poll,
      and they hold the misspelt key. */
    method RunStage(job: Job, st: Stage, s: Settings, e: Env, d: Detail) returns (output: Option<Settings>)
      requires Inv(s) && Fits(e, d) && Encoding.Faithful(codec)
      ensures Triggered(st, s) && Run(job, st, s, e).Ok? ==> output == Some(Run(job, st, s, e).s)
      ensures output.Some? && !RunsThrough(job, st, s, e) ==>
                && FailsToStore(st, s, e)
                && Attempted(s, output.value, e, d) && output.value.scheduledStarted == Some(0)
    {
      hide Inv, WaitStage.PassStored;
      var triggered, raised, s' := false, false, s;
      match st {
        case Configure =>
          var stage := new ConfigureStage();
          triggered, s' := stage.Run(s);
        case Create =>
          var stage := new CreateStage();
          triggered, s' := stage.Run(s, e);
        case Bootstrap =>
          var stage := new BootstrapStage();
          triggered, s' := stage.Run(s, e);
        case Schedule =>
          var stage := new ScheduleStage.Schedule();
          triggered, raised, s' := stage.Run(job, s, e);
        case Execute =>
          var stage := new ExecuteStage.Execute();
          var ups;
          triggered, raised, s', ups := stage.Run(job, s, e, d.values);
        case Wait =>
          if WaitTriggered(s) {
            TriggeredFacts(s, Wait);
          }
          var stage := new WaitStage.Wait();
          triggered, raised, s' := stage.Run(s, d.reliability, AnswerOf(e, d), e);
        case Transform =>
          var stage := new TransformStage();
          triggered, s' := stage.Run(s);
        case Converge =>
          var stage := new ConvergeStage(codec);
          triggered, raised, s' := stage.Run(s, e);
        case Destroy =>
          var stage := new DestroyStage();
          triggered, s' := stage.Run(job, s);
      }
      if !triggered || raised || e.raises {
        return None;
      }
      return Some(s');
    }

    /** The dictionary, set to the new settings, is handed to the store, which raises if and only if they hold the
      misspelt key. */
    method Store(dict: RunSettings.Settings, s: Settings) returns (raised: bool, ghost written: set<Keys.Key>)
      requires Valid() && ContextRows.WellTyped(store.schemas, dict) && ContextRows.Declared(store.schemas, dict)
      requires s.scheduledStarted.None? ==> dict == ContextRows.ReadAll(store.schemas, store.rows)
      requires s.scheduledStarted.Some? ==> OnlyWaitKeys(Stored(), s)
      modifies store
      ensures Valid()
      ensures raised <==> s.scheduledStarted.Some?
      ensures Stored() == if raised then PartlyWritten(old(Stored()), s, written) else s
    {
      hide Encoding.Decode, Encoding.Encode, Encoding.Faithful, Encoding.DeclaresStages, ContextRows.Readable;
      hide ContextRows.WellTyped, ContextRows.Declared, ContextRows.Between, PartlyWritten;
      var d := Encoding.Encode(codec, dict, s);
      Encoding.DeclaredExactly(codec, store.schemas, dict, s);
      raised := store.UpdateRunSettings(d);
      written := {};
      if raised {
        Encoding.ReadsHalfWritten(codec, store.schemas, old(store.rows), dict, s, store.rows);
        written := Encoding.KeysFrom(ContextRows.ReadAll(store.schemas, store.rows), d);
      } else {
        Encoding.ReadsWritten(codec, store.schemas, old(store.rows), s);
      }
    }

    /** The store holds the settings `s` the pass has read, but for what a failed wait pass has written. */
    ghost predicate HoldsPass(s: Settings, dict: RunSettings.Settings, e: Env, attempt: Settings,
                            written: set<Keys.Key>)
      reads this, store
    {
      && Valid() && ContextRows.WellTyped(store.schemas, dict) && ContextRows.Declared(store.schemas, dict)
      && s == Encoding.Decode(codec, dict)
      && (!FailsToStore(Wait, s, e) ==> dict == ContextRows.ReadAll(store.schemas, store.rows))
      && Stored() == PartlyWritten(s, attempt, written)
    }

    /** The store holds what the driver pass comes to. */
    ghost predicate HoldsResult(job: Job, order: seq<Stage>, s: Settings, e: Env, attempt: Settings)
      reads this, store
    {
      && Valid() && Inv(Stored())
      && Ctx(Stored(), false) == DriveFrom(job, s, s, e.(attempt := attempt, written := {}), order)
    }

    method TryStage(job: Job, order: seq<Stage>, ghost tried: seq<Stage>, st: Stage, s: Settings,
                    dict: RunSettings.Settings, e: Env, d: Detail, ghost attempt: Settings,
                        ghost written: set<Keys.Key>)
        returns (triggered: bool, ghost attempt': Settings, ghost written': set<Keys.Key>)
      requires tried + [st] <= order && HoldsPass(s, dict, e, attempt, written)
      requires NoneRan(job, tried, s, e, d, attempt, written) && Fits(e, d)
      modifies store
      ensures triggered ==> written' == {} && HoldsResult(job, order, s, e, attempt')
      ensures !triggered ==> HoldsPass(s, dict, e, attempt', written')
      ensures !triggered ==> NoneRan(job, tried + [st], s, e, d, attempt', written')
    {
      hide Attempted, Encoding.Decode, Run, Triggered, Inv, ContextRows.Readable, ContextRows.WellTyped;
      hide ContextRows.Declared, PartlyWritten, DriveFrom, Encoding.Faithful, Encoding.DeclaresStages;
      triggered, attempt', written' := false, attempt, written;
      var output := RunStage(job, st, s, e, d);
      OneMoreTried(tried, st);
      if output.Some? {
        if RunsThrough(job, st, s, e) {
          StageRan(job, s, e, order, |tried|, attempt);
        } else {
          FailsOnlyWait(s, output.value, e, d);
          WrittenTwice(s, attempt, written, output.value, {});
        }
        var raised, w := Store(dict, output.value);
        if !raised {
          return true, attempt, {};
        }
        attempt', written' := StillPartly(s, attempt, written, output.value, w);
      }
    }

    /** The loop over the stages. */
    method TryStages(job: Job, order: seq<Stage>, s: Settings, dict: RunSettings.Settings, e: Env, d: Detail)
        returns (triggered: bool, ghost attempt: Settings, ghost written: set<Keys.Key>)
      requires HoldsPass(s, dict, e, e.attempt, {}) && Inv(s) && s.scheduledStarted.None? && Fits(e, d)
      modifies store
      ensures triggered ==> written == {} && HoldsResult(job, order, s, e, attempt)
      ensures !triggered ==> HoldsPass(s, dict, e, attempt, written)
      ensures !triggered ==> NoneRan(job, order, s, e, d, attempt, written)
    {
      hide HoldsPass, HoldsResult, Attempted, RunsThrough, FailsToStore, Inv, Fits;
      triggered, attempt, written := false, e.attempt, {};
      for i := 0 to |order|
        invariant !triggered && HoldsPass(s, dict, e, attempt, written)
        invariant NoneRan(job, order[..i], s, e, d, attempt, written)
      {
        assert order[..i + 1] == order[..i] + [order[i]];
        triggered, attempt, written := TryStage(job, order, order[..i], order[i], s, dict, e, d, attempt, written);
        if triggered {
          return;
        }
      }
      assert order[..|order|] == order;
    }

    /** One driver task. The stages are tried in the order the store lists them; the first that is triggered and
      neither raises nor fails to be stored ends the pass. When none does, the context is marked deleted, and what a
      failed wait pass has written by then stays: some of the keys of `attempt`, which is what such a pass hands to the
      store. */
    method ProcessContext(job: Job, order: seq<Stage>, e: Env, d: Detail)
        returns (ghost attempt: Settings, ghost written: set<Keys.Key>)
      requires Valid() && (deleted || Inv(Stored())) && Fits(e, d)
      modifies this`deleted, store
      ensures Valid()
      ensures Ctx(Stored(), deleted)
           == Drive(job, old(Ctx(Stored(), deleted)), e.(attempt := attempt, written := written), order)
      ensures deleted || Inv(Stored())
      ensures written != {} && Distinct(order) ==> Attempted(old(Stored()), attempt, e, d)
    {
      hide Attempted, Encoding.Decode, Run, Triggered, Inv, DriveFrom, Distinct, ContextRows.Readable;
      hide Encoding.Faithful, Encoding.DeclaresStages, ContextRows.WellTyped, ContextRows.Declared;
      attempt, written := e.attempt, {};
      if !deleted {
        Declares();
        var readable, dict := store.GetContext();
        ContextRows.ReadTyped(store.schemas, store.rows);
        Encoding.NeverMisspelt(store.schemas, store.rows);
        var triggered;
        var s := Encoding.Decode(codec, dict);
        triggered, attempt, written := TryStages(job, order, s, dict, e, d);
        if !triggered {
          NothingRan(job, s, e, order, attempt, written);
          deleted := true;
        }
      }
    }

    lemma Declares()
      requires Valid()
      ensures ContextRows.ValidRows(store.schemas, store.rows)
    {
    }
  }

  lemma FailsOnlyWait(s: Settings, output: Settings, e: Env, d: Detail)
    requires Attempted(s, output, e, d)
    ensures OnlyWaitKeys(s, output)
  {
  }
}

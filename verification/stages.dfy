/** The six smaller stages as objects: what they load when triggered, and the settings they write back. Each `Run`
  is the stage as the driver runs it; `raises` is an exception of the stage body. */
module SmallStages {
  import opened Records
  import opened Scheduler
  import opened JobState
  import Encoding
  import RunSettings

  class ConfigureStage {
    constructor () {}

    method IsTriggered(s: Settings) returns (triggered: bool)
      ensures triggered == ConfigureTriggered(s)
    {
      if s.configureDone.Some? {
        return s.configureDone.value == 0;
      }
      return true;
    }

    method Run(s: Settings) returns (triggered: bool, s': Settings)
      ensures triggered == ConfigureTriggered(s) && (triggered ==> s' == ConfigureRun(s))
    {
      s' := s;
      triggered := IsTriggered(s);
      if triggered {
        s' := s.(configureDone := Some(1));
      }
    }
  }

  class CreateStage {
    var createdNodes: seq<Node>

    constructor () {
      createdNodes := [];
    }

    method IsTriggered(s: Settings) returns (triggered: bool)
      modifies this
      ensures triggered == CreateTriggered(s)
    {
      if s.configureDone.None? {
        return false;
      }
      if IsSet(s.createDone) {
        return false;
      }
      if s.createdNodes.Some? {
        createdNodes := s.createdNodes.value;
        return false;
      }
      createdNodes := [];
      return true;
    }

    /** The platform hands out machines; they are recorded as running nodes. */
    method CreateResource(machines: seq<Machine>)
      modifies this
      ensures createdNodes == CreatedNodes(machines)
    {
      createdNodes := [];
      for i := 0 to |machines|
        invariant createdNodes == CreatedNodes(machines)[..i]
      {
        createdNodes := createdNodes + [Node(machines[i].nid, machines[i].ip, machines[i].region, NodeRunning)];
      }
    }

    method Run(s: Settings, e: Env) returns (triggered: bool, s': Settings)
      modifies this
      ensures triggered == CreateTriggered(s) && (triggered ==> s' == CreateRun(s, e))
    {
      s' := s;
      triggered := IsTriggered(s);
      if triggered {
        CreateResource(e.machines);
        s' := s.(createdNodes := Some(createdNodes));
        s' := s'.(createDone := Some(1));
      }
    }
  }

  class BootstrapStage {
    var createdNodes: seq<Node>
    var bootstrappedNodes: seq<Node>
    var started: int

    constructor () {
      createdNodes, bootstrappedNodes, started := [], [], 0;
    }

    method IsTriggered(s: Settings) returns (triggered: bool)
      modifies this
      ensures triggered == BootstrapTriggered(s)
      ensures triggered ==> Some(createdNodes) == s.createdNodes && bootstrappedNodes == s.bootstrappedNodes.GetOr([])
    {
      if s.createdNodes.None? {
        return false;
      }
      createdNodes := s.createdNodes.value;
      var running := RunningNodes(createdNodes);
      if |running| == 0 {
        return false;
      }
      if s.bootstrappedNodes.Some? {
        bootstrappedNodes := s.bootstrappedNodes.value;
        return |bootstrappedNodes| < |running|;
      }
      bootstrappedNodes := [];
      return true;
    }

    /** One poll of the created nodes: a node already bootstrapped is skipped, one that answers is added. */
    method CompleteBootstrap(answers: set<string>)
      modifies this`bootstrappedNodes
      ensures bootstrappedNodes == Confirm(createdNodes, answers, old(bootstrappedNodes))
    {
      var nodes := createdNodes;
      for j := 0 to |nodes|
        invariant Confirm(nodes[j..], answers, bootstrappedNodes) == Confirm(nodes, answers, old(bootstrappedNodes))
      {
        var node := nodes[j];
        assert nodes[j..][1..] == nodes[j + 1..];
        var known := KnownIp(bootstrappedNodes, node.ip);
        if !known && node.ip in answers {
          bootstrappedNodes := bootstrappedNodes + [Node(node.nid, node.ip, node.region, NodeRunning)];
        }
      }
    }

    method Process(s: Settings, answers: set<string>)
      modifies this`started, this`bootstrappedNodes
      ensures started == if s.bootStarted.GetOr(0) == 0 then 1 else s.bootStarted.GetOr(0)
      ensures bootstrappedNodes == if s.bootStarted.GetOr(0) == 0 then old(bootstrappedNodes)
                                   else Confirm(createdNodes, answers, old(bootstrappedNodes))
    {
      started := s.bootStarted.GetOr(0);
      if started == 0 {
        started := 1;
      } else {
        CompleteBootstrap(answers);
      }
    }

    method Run(s: Settings, e: Env) returns (triggered: bool, s': Settings)
      modifies this
      ensures triggered == BootstrapTriggered(s) && (triggered ==> s' == BootstrapRun(s, e))
    {
      s' := s;
      triggered := IsTriggered(s);
      if triggered {
        Process(s, e.booted);
        s' := s.(bootStarted := Some(started), bootstrappedNodes := Some(bootstrappedNodes), systemId := Some(0),
                 createdNodes := Some(createdNodes));
        var running := RunningNodes(createdNodes);
        if bootstrappedNodes != [] && |bootstrappedNodes| == |running| {
          s' := s'.(bootstrapDone := Some(1));
        }
      }
    }
  }

  class TransformStage {
    var procs2bRescheduled: seq<Rec>
    var converged: int
    var transformed: int

    constructor () {
      procs2bRescheduled, converged, transformed := [], 0, 0;
    }

    method IsTriggered(s: Settings) returns (triggered: bool)
      modifies this
      ensures triggered == TransformTriggered(s)
    {
      if s.procs2bRescheduled.Some? {
        procs2bRescheduled := s.procs2bRescheduled.value;
        if procs2bRescheduled != [] {
          return false;
        }
      }
      if s.currentProcesses.Some? && Count(s.currentProcesses.value, Ready) != 0 {
        return false;
      }
      if s.failedNodes.Some? && s.createdNodes.Some? {
        if |s.failedNodes.value| == |s.createdNodes.value| || |s.createdNodes.value| == 0 {
          return false;
        }
      }
      converged := s.converged.GetOr(0);
      if s.runsLeft.Some? {
        transformed := s.transformed.GetOr(0);
        if s.runsLeft.value == 0 && transformed == 0 && converged == 0 {
          return true;
        }
      }
      return false;
    }

    method Run(s: Settings) returns (triggered: bool, s': Settings)
      modifies this
      ensures triggered == TransformTriggered(s) && (triggered ==> s' == TransformRun(s))
    {
      s' := s;
      triggered := IsTriggered(s);
      if triggered {
        s' := s.(transformed := Some(1));
      }
    }
  }

  class ConvergeStage {
    const codec: Encoding.Codec
    var id: int
    var doneIterating: bool

    constructor (codec: Encoding.Codec)
      ensures this.codec == codec
    {
      this.codec := codec;
      id, doneIterating := 0, false;
    }

    method IsTriggered(s: Settings) returns (triggered: bool)
      ensures triggered == ConvergeTriggered(s)
    {
      if s.transformed.Some? {
        return s.transformed.value != 0;
      }
      return false;
    }

    /** The two deletions on the dictionary of the run settings: a missing schema is caught, a missing key is not. */
    method DeleteRunKeys(s: Settings) returns (raised: bool, s': Settings)
      requires Encoding.Faithful(codec)
      ensures raised <==> !DeletesRunKeys(s)
      ensures !raised ==> s' == s.(runsLeft := None, errorNodes := None)
    {
      Encoding.ConvergeDeletes(codec, s);
      var context := new RunSettings.RunContext(Encoding.Encode(codec, map[], s));
      var r := context.Delkey(Encoding.RUN + "/runs_left");
      if r.KeyMissing? {
        return true, s;
      }
      r := context.Delkey(Encoding.RUN + "/error_nodes");
      if r.KeyMissing? {
        return true, s;
      }
      return false, Encoding.Decode(codec, context.c);
    }

    method Output(s: Settings) returns (raised: bool, s': Settings)
      requires s.transformed.Some? && Encoding.Faithful(codec)
      modifies this`id
      ensures raised <==> !doneIterating && !DeletesRunKeys(s)
      ensures !raised ==>
                var s'' := s.(transformed := None, systemId := Some(old(id) + 1));
                s' == if doneIterating then s''.(converged := Some(1)) else
                        s''.(scheduledNodes := Some([]), executedProcs := Some([]), currentProcesses := Some([]),
                             totalScheduledProcs := Some(0), scheduleCompleted := Some(0), scheduleStarted := Some(0),
                             runsLeft := None, errorNodes := None, converged := Some(0))
    {
      s', raised := s, false;
      if !doneIterating {
        s' := s'.(scheduledNodes := Some([]), executedProcs := Some([]), currentProcesses := Some([]),
                  totalScheduledProcs := Some(0), scheduleCompleted := Some(0), scheduleStarted := Some(0));
        raised, s' := DeleteRunKeys(s');
        if raised {
          return;
        }
        s' := s'.(converged := Some(0));
      } else {
        s' := s'.(converged := Some(1));
      }
      s' := s'.(transformed := None);
      id := id + 1;
      s' := s'.(systemId := Some(id));
    }

    method Run(s: Settings, e: Env) returns (triggered: bool, raised: bool, s': Settings)
      requires Encoding.Faithful(codec)
      modifies this
      ensures triggered == ConvergeTriggered(s)
      ensures triggered ==> (raised <==> ConvergeRun(s, e).Raised?)
      ensures triggered && !raised ==> ConvergeRun(s, e) == Ok(s')
    {
      s', raised := s, false;
      triggered := IsTriggered(s);
      if triggered {
        id := s.systemId.GetOr(0);
        doneIterating := e.done;
        raised, s' := Output(s);
      }
    }
  }

  class DestroyStage {
    var createdNodes: seq<Node>
    var scheduledNodes: seq<Node>
    var bootstrappedNodes: seq<Node>

    constructor () {
      createdNodes, scheduledNodes, bootstrappedNodes := [], [], [];
    }

    method IsTriggered(s: Settings) returns (triggered: bool)
      ensures triggered == DestroyTriggered(s)
    {
      if !IsSet(s.converged) {
        return false;
      }
      if s.runFinished.None? {
        return true;
      }
      return s.runFinished.value == 0;
    }

    method Terminate(nodes: seq<Node>) returns (r: seq<Node>)
      ensures r == Terminated(nodes)
    {
      r := [];
      for i := 0 to |nodes|
        invariant r == Terminated(nodes)[..i]
      {
        r := r + [if nodes[i].state == NodeRunning then nodes[i].(state := NodeTerminated) else nodes[i]];
      }
    }

    /** Only a cloud gives its machines back. */
    method DestroyResource(cloud: bool)
      modifies this
      ensures createdNodes == if cloud then Terminated(old(createdNodes)) else old(createdNodes)
      ensures scheduledNodes == if cloud then Terminated(old(scheduledNodes)) else old(scheduledNodes)
      ensures bootstrappedNodes == if cloud then Terminated(old(bootstrappedNodes)) else old(bootstrappedNodes)
    {
      if cloud {
        createdNodes := Terminate(createdNodes);
        scheduledNodes := Terminate(scheduledNodes);
        bootstrappedNodes := Terminate(bootstrappedNodes);
      }
    }

    method Run(job: Job, s: Settings) returns (triggered: bool, s': Settings)
      modifies this
      ensures triggered == DestroyTriggered(s) && (triggered ==> s' == DestroyRun(job, s))
    {
      s' := s;
      triggered := IsTriggered(s);
      if triggered {
        createdNodes := s.createdNodes.GetOr([]);
        scheduledNodes := s.scheduledNodes.GetOr([]);
        bootstrappedNodes := s.bootstrappedNodes.GetOr([]);
        DestroyResource(job.cloud);
        s' := s.(runFinished := Some(1));
        s' := s'.(createdNodes := Some(createdNodes));
        s' := s'.(scheduledNodes := Some(scheduledNodes));
        s' := s'.(bootstrappedNodes := Some(bootstrappedNodes));
      }
    }
  }
}

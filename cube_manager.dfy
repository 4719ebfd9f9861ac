/**
 * The node-topology manager of api/cube/core/cube_manager.py: the nine
 * cube nodes, the training-task queue with its single consumer, and the
 * dependency monitor. The two background loops become step methods that a
 * caller repeats; their `asyncio.sleep` pacing is not modelled.
 */
module CubeCore {
  import opened Wrappers
  import opened JsonValues
  import Sets

  /** `architecture.max_nodes`: eight vertices plus the central node. */
  const MAX_NODES := 9

  /** The fixed (name, role) table; node `k` (counting from 1) gets entry `k - 1`. */
  const NODE_ROLES: seq<(string, string)> := [
    ("vertex_1", "SCADA"),
    ("vertex_2", "HMI"),
    ("vertex_3", "PLC"),
    ("vertex_4", "HISTORIAN"),
    ("vertex_5", "GATEWAY"),
    ("vertex_6", "LOAD_BALANCER"),
    ("vertex_7", "TRAINING"),
    ("vertex_8", "MONITORING"),
    ("central", "COORDINATOR")
  ]

  /** The lifecycle of a node: "initializing", "active" or "error". */
  datatype Status = Initializing | Active | Error

  /** The training data handed to a node: a `Dict[str, Any]`. */
  type Payload = Dict

  /** One queue entry, built by `add_training_data`. */
  datatype TrainingTask = TrainingTask(nodeId: int, data: Payload, timestamp: string)

  /** The two role handlers that `process_training_data` can call. */
  datatype Handler = TrainingHandler | MonitoringHandler

  /**
   * What `process_training_data` did with a payload: nothing (the role has
   * no branch), or it called a handler, which returned or raised; a raised
   * exception is logged and swallowed.
   */
  datatype Handling = NoHandler | Handled(handler: Handler, data: Payload, raised: bool)

  /** What one iteration of the queue consumer did. */
  datatype ConsumerStep =
    | Idle                                          // the queue was empty: `get()` suspends
    | Delivered(nodeId: int, handling: Handling)    // the target node processed the payload
    | Dropped(nodeId: int)                          // no node has that id: the task is discarded

  /** The dictionary `get_status` returns. */
  datatype NodeSnapshot = NodeSnapshot(
    nodeId: int, name: string, role: string, status: Status,
    dependencies: seq<int>, timestamp: string)

  /** The `ValueError` of `get_node_status`. */
  datatype StatusError = NodeNotFound(nodeId: int)

  /** How `_initialize_nodes` ended: after the whole table, or raising out of node `nodeId`. */
  datatype InitOutcome = AllInitialized | InitRaised(nodeId: int)

  function Min(a: int, b: int): int {
    if a <= b then a else b
  }

  /**
   * `CubeNode.process_training_data`: only the roles "TRAINING" and
   * "MONITORING" have a branch; every other role is a silent no-op. An
   * exception raised by the handler (`handlerRaises`) is caught.
   */
  function ProcessTrainingData(role: string, data: Payload, handlerRaises: bool): (h: Handling)
    ensures h.NoHandler? <==> role != "TRAINING" && role != "MONITORING"
    ensures h.Handled? ==> h.data == data && h.raised == handlerRaises
    ensures h.Handled? ==> (h.handler == TrainingHandler <==> role == "TRAINING")
  {
    if role == "TRAINING" then Handled(TrainingHandler, data, handlerRaises)
    else if role == "MONITORING" then Handled(MonitoringHandler, data, handlerRaises)
    else NoHandler
  }

  /**
   * One consumer iteration on a dequeued task, given the role of every
   * node in the table: the target node processes the payload, or the task
   * is dropped when its id is unknown.
   */
  function Consume(task: TrainingTask, roles: map<int, string>, handlerRaises: bool): (step: ConsumerStep)
    ensures !step.Idle? && step.nodeId == task.nodeId
    ensures step.Delivered? <==> task.nodeId in roles
    ensures step.Delivered? && step.handling.Handled? ==> step.handling.data == task.data
    ensures step.Delivered? ==> (step.handling.Handled? <==> roles[task.nodeId] in {"TRAINING", "MONITORING"})
  {
    if task.nodeId in roles then Delivered(task.nodeId, ProcessTrainingData(roles[task.nodeId], task.data, handlerRaises))
    else Dropped(task.nodeId)
  }

  /**
   * Repeated consumer iterations over a queue: `raises[i]` says whether
   * the handler raises on the i-th task taken. Stops when either runs out.
   */
  function Drain(queue: seq<TrainingTask>, roles: map<int, string>, raises: seq<bool>): (steps: seq<ConsumerStep>)
    ensures |steps| == Min(|queue|, |raises|)
    decreases |raises|
  {
    if queue == [] || raises == [] then []
    else [Consume(queue[0], roles, raises[0])] + Drain(queue[1..], roles, raises[1..])
  }

  /** The (node id, payload) pairs that reached a role handler, in order. */
  function HandlerCalls(steps: seq<ConsumerStep>): seq<(int, Payload)> {
    if steps == [] then []
    else
      var rest := HandlerCalls(steps[1..]);
      if steps[0].Delivered? && steps[0].handling.Handled? then [(steps[0].nodeId, steps[0].handling.data)] + rest
      else rest
  }

  /** The submitted tasks whose target exists and has a handler, as (node id, payload), in submission order. */
  function HandledSubmissions(queue: seq<TrainingTask>, roles: map<int, string>): seq<(int, Payload)> {
    if queue == [] then []
    else
      var rest := HandledSubmissions(queue[1..], roles);
      if queue[0].nodeId in roles && roles[queue[0].nodeId] in {"TRAINING", "MONITORING"}
      then [(queue[0].nodeId, queue[0].data)] + rest
      else rest
  }

  /** The first table position, from `i` on, whose `initialize()` raises; `MAX_NODES + 1` if none does. */
  function FirstRaisingFrom(raising: set<int>, i: int): (k: int)
    requires 1 <= i <= MAX_NODES + 1
    ensures i <= k <= MAX_NODES + 1
    ensures k <= MAX_NODES ==> k in raising
    ensures forall j :: i <= j < k ==> j !in raising
    decreases MAX_NODES + 1 - i
  {
    if i > MAX_NODES || i in raising then i else FirstRaisingFrom(raising, i + 1)
  }

  /**
   * The node at which `_initialize_nodes` stops when the nodes in
   * `raising` raise from `initialize()`: the first of them in table order,
   * or `MAX_NODES + 1` when none of the nine does.
   */
  function FirstRaising(raising: set<int>): (k: int)
    ensures 1 <= k <= MAX_NODES + 1
    ensures k <= MAX_NODES ==> k in raising
    ensures forall j :: 1 <= j < k ==> j !in raising
  {
    FirstRaisingFrom(raising, 1)
  }

  /** The ids 1..n. */
  function IdsUpTo(n: nat): (ids: set<int>)
    ensures forall k :: k in ids <==> 1 <= k <= n
  {
    if n == 0 then {} else IdsUpTo(n - 1) + {n}
  }

  /** The (name, role) of node `k` of the fixed table. */
  function TableEntry(k: int): (string, string)
    requires 1 <= k <= MAX_NODES
  {
    NODE_ROLES[k - 1]
  }

  /** The ids of the nodes `_initialize_nodes` stores before it stops. */
  function StoredIds(raising: set<int>): set<int> {
    IdsUpTo(FirstRaising(raising) - 1)
  }

  /** `node` is an initialised node built from the table entry `entry`. */
  ghost predicate IsTableNode(node: CubeNode, entry: (string, string))
    reads node
  {
    (node.name, node.role) == entry && node.status == Active && node.dependencies == []
  }

  /** The role of every node in a table. Roles never change, so this reads nothing. */
  ghost function RoleMap(nodes: map<int, CubeNode>): map<int, string> {
    map k | k in nodes :: nodes[k].role
  }

  /** A node of the cube. Its id, name and role never change. */
  class CubeNode {
    const nodeId: int
    const name: string
    const role: string
    var dependencies: seq<int>
    var status: Status

    /** `CubeNode.__init__`: a new node is "initializing" and has no dependencies. */
    constructor (nodeId: int, name: string, role: string)
      ensures this.nodeId == nodeId && this.name == name && this.role == role
      ensures status == Initializing && dependencies == []
    {
      this.nodeId := nodeId;
      this.name := name;
      this.role := role;
      dependencies := [];
      status := Initializing;
    }

    /**
     * `CubeNode.initialize`. `componentsRaise` says whether the role-specific
     * set-up raises; then the node is marked "error" and the exception goes
     * back to the caller, reported here as `ok == false`.
     */
    method Initialize(componentsRaise: bool) returns (ok: bool)
      modifies this
      ensures ok == !componentsRaise
      ensures status == (if ok then Active else Error)
      ensures dependencies == old(dependencies)
    {
      if componentsRaise {
        status := Error;
        ok := false;
      } else {
        status := Active;
        ok := true;
      }
    }

    /** `CubeNode.check_dependencies`: allowed to update the node, it changes nothing. */
    method CheckDependencies()
      modifies this
      ensures status == old(status) && dependencies == old(dependencies)
    {
    }

    /** `CubeNode.get_status`: a snapshot of the stored fields, stamped with `timestamp`. */
    function GetStatus(timestamp: string): (s: NodeSnapshot)
      reads this
      ensures s.nodeId == nodeId && s.name == name && s.role == role
      ensures s.status == status && s.dependencies == dependencies && s.timestamp == timestamp
    {
      NodeSnapshot(nodeId, name, role, status, dependencies, timestamp)
    }
  }

  /** `CubeManager`: the node table and the training queue. */
  class CubeManager {
    var activeNodes: map<int, CubeNode>
    var trainingQueue: seq<TrainingTask>

    /** Every node is stored under its own id, so no two entries share an id. */
    ghost predicate Valid()
      reads this
    {
      forall k :: k in activeNodes ==> activeNodes[k].nodeId == k
    }

    /** Every node in the table got through `initialize()`. */
    ghost predicate AllActive()
      reads this, activeNodes.Values
    {
      forall k :: k in activeNodes ==> activeNodes[k].status == Active
    }

    /** `CubeManager.__init__`: no nodes, an empty queue. */
    constructor ()
      ensures Valid() && AllActive()
      ensures activeNodes == map[] && trainingQueue == []
    {
      activeNodes := map[];
      trainingQueue := [];
    }

    /**
     * `_initialize_nodes`: creates node k = 1..9 from `NODE_ROLES`, calls
     * its `initialize()` and only then stores it. Nothing catches an
     * exception, so the first node in `raising` ends the loop: it is not
     * stored and neither is any node after it.
     */
    method InitializeNodes(raising: set<int>) returns (outcome: InitOutcome)
      requires Valid()
      modifies this
      ensures Valid()
      ensures trainingQueue == old(trainingQueue)
      ensures outcome == if FirstRaising(raising) <= MAX_NODES then InitRaised(FirstRaising(raising)) else AllInitialized
      ensures activeNodes.Keys == old(activeNodes).Keys + StoredIds(raising)
      ensures forall k :: k in StoredIds(raising) ==> IsTableNode(activeNodes[k], TableEntry(k))
      ensures forall k :: k in old(activeNodes) && k !in StoredIds(raising) ==> activeNodes[k] == old(activeNodes)[k]
      ensures old(AllActive()) ==> AllActive()
    {
      var stored := InstallTable(NODE_ROLES, raising);
      outcome := if stored < MAX_NODES then InitRaised(stored + 1) else AllInitialized;
      assert FirstRaising(raising) == stored + 1;
      assert forall k :: k in StoredIds(raising) <==> 1 <= k <= stored;
    }

    /**
     * The loop of `_initialize_nodes`: installs nodes 1, 2, ... and stops
     * after the last table entry or at the first node that raises; returns
     * how many nodes it stored.
     */
    method InstallTable(table: seq<(string, string)>, raising: set<int>) returns (stored: int)
      requires Valid()
      modifies this
      ensures 0 <= stored <= |table|
      ensures stored < |table| ==> stored + 1 in raising
      ensures forall j :: 1 <= j <= stored ==> j !in raising
      ensures Valid() && trainingQueue == old(trainingQueue)
      ensures forall k :: k in activeNodes <==> k in old(activeNodes) || 1 <= k <= stored
      ensures forall k :: 1 <= k <= stored ==> IsTableNode(activeNodes[k], table[k - 1])
      ensures forall k :: k in old(activeNodes) && !(1 <= k <= stored) ==> activeNodes[k] == old(activeNodes)[k]
      ensures old(AllActive()) ==> AllActive()
    {
      stored := 0;
      while stored < |table|
        invariant 0 <= stored <= |table|
        invariant forall j :: 1 <= j <= stored ==> j !in raising
        invariant Valid() && trainingQueue == old(trainingQueue)
        invariant forall k :: k in activeNodes <==> k in old(activeNodes) || 1 <= k <= stored
        invariant forall k :: 1 <= k <= stored ==> IsTableNode(activeNodes[k], table[k - 1])
        invariant forall k :: k in old(activeNodes) && !(1 <= k <= stored) ==> activeNodes[k] == old(activeNodes)[k]
        invariant old(AllActive()) ==> AllActive()
      {
        var ok := InstallNode(stored + 1, table[stored], stored + 1 in raising);
        if !ok {
          return;
        }
        stored := stored + 1;
      }
    }

    /**
     * One pass of the `_initialize_nodes` loop: builds node `nodeId` from
     * the table, calls its `initialize()`, and stores it only if that did
     * not raise.
     */
    method InstallNode(nodeId: int, entry: (string, string), componentsRaise: bool) returns (ok: bool)
      requires Valid()
      modifies this
      ensures Valid() && trainingQueue == old(trainingQueue)
      ensures ok == !componentsRaise
      ensures !ok ==> activeNodes == old(activeNodes)
      ensures ok ==> nodeId in activeNodes && activeNodes == old(activeNodes)[nodeId := activeNodes[nodeId]]
      ensures ok ==> fresh(activeNodes[nodeId]) && IsTableNode(activeNodes[nodeId], entry)
      ensures old(AllActive()) ==> AllActive()
    {
      var node := new CubeNode(nodeId, entry.0, entry.1);
      ok := node.Initialize(componentsRaise);
      if ok {
        activeNodes := activeNodes[nodeId := node];
      }
    }

    /** `add_training_data`: appends one task at the back; the node id is not checked. */
    method AddTrainingData(nodeId: int, data: Payload, timestamp: string)
      modifies this`trainingQueue
      ensures trainingQueue == old(trainingQueue) + [TrainingTask(nodeId, data, timestamp)]
    {
      trainingQueue := trainingQueue + [TrainingTask(nodeId, data, timestamp)];
    }

    /**
     * One iteration of `_process_training_queue`: takes the task at the
     * front and hands its payload to the target node, or drops it when no
     * node has that id. The task is never put back.
     */
    method ProcessNextTrainingTask(handlerRaises: bool) returns (step: ConsumerStep)
      modifies this`trainingQueue
      ensures old(trainingQueue) == [] ==> step == Idle && trainingQueue == []
      ensures old(trainingQueue) != [] ==>
        trainingQueue == old(trainingQueue)[1..] && step == Consume(old(trainingQueue)[0], RoleMap(activeNodes), handlerRaises)
    {
      if trainingQueue == [] {
        return Idle;
      }
      var task := trainingQueue[0];
      trainingQueue := trainingQueue[1..];
      if task.nodeId in activeNodes {
        var node := activeNodes[task.nodeId];
        step := Delivered(task.nodeId, ProcessTrainingData(node.role, task.data, handlerRaises));
      } else {
        step := Dropped(task.nodeId);
      }
    }

    /**
     * The consumer loop run for `|raises|` iterations, or until the queue
     * is empty (where `get()` would suspend).
     */
    method RunConsumer(raises: seq<bool>) returns (steps: seq<ConsumerStep>)
      modifies this`trainingQueue
      ensures steps == Drain(old(trainingQueue), RoleMap(activeNodes), raises)
      ensures trainingQueue == old(trainingQueue)[|steps|..]
    {
      ghost var all := Drain(trainingQueue, RoleMap(activeNodes), raises);
      steps := [];
      var i := 0;
      while i < |raises| && trainingQueue != []
        invariant 0 <= i <= |raises| && i <= |old(trainingQueue)|
        invariant trainingQueue == old(trainingQueue)[i..]
        invariant steps == all[..i]
      {
        var step := ProcessNextTrainingTask(raises[i]);
        DrainIsFifo(old(trainingQueue), RoleMap(activeNodes), raises, i);
        assert all[..i + 1] == all[..i] + [step];
        steps := steps + [step];
        i := i + 1;
      }
    }

    /**
     * One sweep of `_monitor_dependencies`: calls `check_dependencies()` on
     * every node of the table once, in some order. No node changes.
     */
    method MonitorDependenciesOnce() returns (visited: seq<int>)
      modifies activeNodes.Values
      ensures forall k :: k in activeNodes ==> k in visited
      ensures forall i :: 0 <= i < |visited| ==> visited[i] in activeNodes
      ensures forall i, j :: 0 <= i < j < |visited| ==> visited[i] != visited[j]
      ensures forall k :: k in activeNodes ==>
        activeNodes[k].status == old(activeNodes[k].status) && activeNodes[k].dependencies == old(activeNodes[k].dependencies)
    {
      visited := [];
      var pending := activeNodes.Keys;
      while pending != {}
        invariant pending <= activeNodes.Keys
        invariant forall k :: k in activeNodes ==> (k in visited <==> k !in pending)
        invariant forall i :: 0 <= i < |visited| ==> visited[i] in activeNodes
        invariant forall i, j :: 0 <= i < j < |visited| ==> visited[i] != visited[j]
        invariant forall k :: k in activeNodes ==>
          activeNodes[k].status == old(activeNodes[k].status) && activeNodes[k].dependencies == old(activeNodes[k].dependencies)
        decreases pending
      {
        var id := Sets.Pick(pending);
        activeNodes[id].CheckDependencies();
        visited := visited + [id];
        pending := pending - {id};
      }
    }

    /** `get_node_status`: `ValueError` for an unknown id, otherwise the node's snapshot. */
    function GetNodeStatus(nodeId: int, timestamp: string): (r: Result<NodeSnapshot, StatusError>)
      reads this, activeNodes.Values
      ensures r.Failure? <==> nodeId !in activeNodes
      ensures r.Failure? ==> r.error == NodeNotFound(nodeId)
      ensures r.Success? ==>
        var node := activeNodes[nodeId];
        r.value.name == node.name && r.value.role == node.role && r.value.status == node.status
        && r.value.dependencies == node.dependencies && r.value.timestamp == timestamp
      ensures r.Success? && Valid() ==> r.value.nodeId == nodeId
    {
      if nodeId in activeNodes then Success(activeNodes[nodeId].GetStatus(timestamp))
      else Failure(NodeNotFound(nodeId))
    }
  }

  /** The table has `MAX_NODES` entries, with distinct names and distinct roles, and the coordinator last. */
  lemma NodeTableShape()
    ensures |NODE_ROLES| == MAX_NODES
    ensures forall i, j :: 0 <= i < j < |NODE_ROLES| ==> NODE_ROLES[i].0 != NODE_ROLES[j].0 && NODE_ROLES[i].1 != NODE_ROLES[j].1
    ensures NODE_ROLES[MAX_NODES - 1] == ("central", "COORDINATOR")
  {
  }

  /** There are exactly `n` ids in 1..n. */
  lemma {:induction false} IdsUpToCount(n: nat)
    ensures |IdsUpTo(n)| == n
  {
    if n > 0 {
      var below := IdsUpTo(n - 1);
      IdsUpToCount(n - 1);
      assert n !in below;
      assert |below + {n}| == |below| + 1;
    }
  }

  /** When no node raises, the table holds exactly the ids 1..9. */
  lemma FullTopology()
    ensures StoredIds({}) == IdsUpTo(MAX_NODES)
    ensures |StoredIds({})| == MAX_NODES
  {
    assert FirstRaising({}) == MAX_NODES + 1;
    IdsUpToCount(MAX_NODES);
  }

  /**
   * Startup does not continue past a raising node: if node `k` raises,
   * no node with an id of `k` or more is stored, and the ones stored are
   * a prefix of the full table.
   */
  lemma StartupStopsAtRaisingNode(raising: set<int>, k: int)
    requires 1 <= k <= MAX_NODES && k in raising
    ensures FirstRaising(raising) <= k
    ensures forall j :: j in StoredIds(raising) ==> 1 <= j < k
    ensures StoredIds(raising) < StoredIds({})
  {
    FullTopology();
    assert k !in StoredIds(raising) && k in StoredIds({});
  }

  /** Of the nine nodes, only vertex_7 (TRAINING) and vertex_8 (MONITORING) hand data to a handler. */
  lemma OnlyTrainingAndMonitoringNodesHandle(data: Payload, handlerRaises: bool)
    ensures forall i :: 0 <= i < |NODE_ROLES| ==>
      (ProcessTrainingData(NODE_ROLES[i].1, data, handlerRaises).Handled? <==> NODE_ROLES[i].0 in {"vertex_7", "vertex_8"})
  {
  }

  /** FIFO: the i-th consumer iteration handles the i-th submitted task. */
  lemma {:induction false} DrainIsFifo(queue: seq<TrainingTask>, roles: map<int, string>, raises: seq<bool>, i: int)
    requires 0 <= i < Min(|queue|, |raises|)
    ensures Drain(queue, roles, raises)[i] == Consume(queue[i], roles, raises[i])
    decreases i
  {
    if i > 0 {
      DrainIsFifo(queue[1..], roles, raises[1..], i - 1);
    }
  }

  /**
   * Handlers are invoked in exactly the order the tasks were submitted,
   * and only for tasks whose target node exists and has a handler.
   */
  lemma {:induction false} HandlersSeeSubmissionOrder(queue: seq<TrainingTask>, roles: map<int, string>, raises: seq<bool>)
    requires |raises| >= |queue|
    ensures HandlerCalls(Drain(queue, roles, raises)) == HandledSubmissions(queue, roles)
    decreases |queue|
  {
    if queue != [] {
      HandlersSeeSubmissionOrder(queue[1..], roles, raises[1..]);
    }
  }

  /** A task for an id with no node never reaches a handler: every step for it is a drop. */
  lemma {:induction false} UnknownTargetIsDropped(queue: seq<TrainingTask>, roles: map<int, string>, raises: seq<bool>, id: int)
    requires id !in roles
    ensures var steps := Drain(queue, roles, raises);
      forall i :: 0 <= i < |steps| && queue[i].nodeId == id ==> steps[i] == Dropped(id)
  {
    var steps := Drain(queue, roles, raises);
    forall i | 0 <= i < |steps| && queue[i].nodeId == id
      ensures steps[i] == Dropped(id)
    {
      DrainIsFifo(queue, roles, raises, i);
    }
  }

  /**
   * A task submitted later (appended by `add_training_data`) does not
   * change how the tasks already queued are consumed.
   */
  lemma {:induction false} LaterSubmissionKeepsEarlierSteps(queue: seq<TrainingTask>, task: TrainingTask, roles: map<int, string>, raises: seq<bool>)
    requires |raises| <= |queue|
    ensures Drain(queue + [task], roles, raises) == Drain(queue, roles, raises)
    decreases |raises|
  {
    if raises != [] {
      assert (queue + [task])[1..] == queue[1..] + [task];
      LaterSubmissionKeepsEarlierSteps(queue[1..], task, roles, raises[1..]);
    }
  }
}

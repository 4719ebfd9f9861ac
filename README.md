# KonomiMegaCube: cube node manager and standalone cube server, in Dafny

This project models two pieces of KonomiMegaCube, a SCADA training system
arranged as a "cube" of nodes.

- **The node-topology manager** (`api/cube/core/cube_manager.py`), module
  `CubeCore`. A `CubeManager` builds nine `CubeNode`s from a fixed
  (name, role) table: eight vertices `vertex_1`/SCADA … `vertex_8`/MONITORING,
  then `central`/COORDINATOR, with ids 1..9. Each node is stored only after its
  `initialize()` returns. Training tasks are appended to a FIFO queue without
  any check. A single consumer takes the task at the front and hands its
  payload to the target node, or drops it when no node has that id. Only the
  TRAINING and MONITORING roles have a handler. A dependency sweep calls the
  no-op `check_dependencies()` on every node. Status lookups fail for an
  unknown id. `CubeNode` and `CubeManager` are classes whose methods update
  their fields in place. The two endless background loops are step methods
  (`ProcessNextTrainingTask`, `MonitorDependenciesOnce`) plus `RunConsumer`,
  which repeats the consumer step.
- **The standalone cube server** (`services/standalone/cube_server.py`),
  module `StandaloneServer`. `StandaloneCubeServer` keeps a fixed
  `instance_id` and the set of open websocket connections. `ProcessMessage`
  dispatches an inbound JSON message on its `type` tag:
  - `create_cube` gets `cube_created`;
  - `list_cubes` gets `cube_list`;
  - `peer_discovery` gets `peer_ack`, but only when `peer_id` is truthy;
  - any other tag gets no reply;
  - an exception gets exactly one `error` reply.

  A connection is registered, answers its messages in order, and is
  unregistered when it ends. A broadcast sends to every connection, and a
  failed send does not stop the others. The REST handler bodies for status,
  cube creation, cube lookup and sending a message to a cube are modelled
  too.

Supporting modules: `Wrappers` (Result), `JsonValues` (decoded JSON
values, Python truthiness, `dict.get`, and `Attempt`, the outcome of a call
into code outside the model), `Sets` (picking some element of a set, for
iteration whose order is left open).

Values the program draws from the environment are parameters. These are
`uuid4()` ids, `utcnow()` timestamps, whether a node's set-up or a role
handler raises, and whether a send to a client fails. The cube manager the
server imports from `sim.services.cube.manager` is not part of this model. Its
three calls are the oracle `Backend`, and each call returns a value or raises.

Facts about the code that the model keeps as written:

- Startup does not continue past a node whose `initialize()` raises: nothing
  catches the exception (`api/cube/core/cube_manager.py:62-70`), so that
  node and every later one are not stored (`InitializeNodes`,
  `StartupStopsAtRaisingNode`).
- The dependency sweep has one `try` around the whole sweep, not one per
  node (`api/cube/core/cube_manager.py:92-96`). This changes nothing here,
  because `check_dependencies` does nothing.
- The manager has no "not ready" state: its operations can be called before
  startup, and they check nothing of the kind.
- Peer discovery is answered only when `peer_id` is truthy
  (`services/standalone/cube_server.py:180`).
- The broadcast envelope of `send_cube_message` names the cube in a
  `cube_id` field (`services/standalone/cube_server.py:124-129`).
- `initialize()` reads `config["networking"]["websocket"]["port"]`
  (`api/cube/core/cube_manager.py:32`), but the configuration in
  `api/cube/config/cube_config.py:35-42` has only `standalone_port` and
  `scada_port` under that key. As written, `initialize()` therefore raises
  `KeyError` before `_initialize_nodes` runs and before either background
  loop starts. `InitializeNodes` models the private `_initialize_nodes`,
  which the code only reaches when it is called directly.

## Model

| member | source | states |
|---|---|---|
| `CubeCore.CubeNode.constructor` | api/cube/core/cube_manager.py:117-123 | a new node keeps its id, name and role, is "initializing", and has no dependencies |
| `CubeCore.CubeNode.Initialize` | api/cube/core/cube_manager.py:125-134 | set-up that returns makes the node "active"; set-up that raises makes it "error" and reports the failure to the caller; dependencies are untouched |
| `CubeCore.ProcessTrainingData` | api/cube/core/cube_manager.py:136-146 | a handler is called iff the role is TRAINING or MONITORING (the training handler iff TRAINING), it gets the payload unchanged, and an exception it raises is absorbed |
| `CubeCore.CubeNode.CheckDependencies` | api/cube/core/cube_manager.py:148-151 | checking dependencies changes neither the status nor the dependency list |
| `CubeCore.CubeNode.GetStatus` | api/cube/core/cube_manager.py:153-162 | the snapshot reports exactly the node's stored id, name, role, status and dependencies, with the given timestamp |
| `CubeCore.CubeManager.constructor` | api/cube/core/cube_manager.py:21-25 | a new manager has no nodes and an empty queue, and its id-keyed table is consistent |
| `CubeCore.FirstRaising` | api/cube/core/cube_manager.py:62-70 | the node where startup stops is a raising node (or one past the table), and no node before it raises |
| `CubeCore.CubeManager.InitializeNodes` | api/cube/core/cube_manager.py:48-70 | startup reports the first raising node or full success; it adds exactly the ids before the first raising node; each added node k is active, has no dependencies, and carries the name and role of table entry k; other entries and the queue are untouched; every node stays stored under its own id, and if every stored node was active, every stored node still is |
| `CubeCore.CubeManager.InstallTable` | api/cube/core/cube_manager.py:62-70 | the loop stores nodes 1..stored in order, each built from its table entry and active; it stops at the end of the table or just before the first raising node; only active nodes are added |
| `CubeCore.CubeManager.InstallNode` | api/cube/core/cube_manager.py:63-70 | a new node from the entry is stored under its id only if its initialisation returned; otherwise the table is unchanged; entries under other ids keep their nodes |
| `CubeCore.NodeTableShape` | api/cube/core/cube_manager.py:50-60 | the table has nine entries, names and roles are pairwise distinct, and the coordinator comes last |
| `CubeCore.IdsUpToCount` | api/cube/core/cube_manager.py:62 | numbering the table from 1 gives exactly n distinct ids for n entries |
| `CubeCore.FullTopology` | api/cube/core/cube_manager.py:50-70 | when no node raises, startup stores exactly the ids 1..9, nine nodes |
| `CubeCore.StartupStopsAtRaisingNode` | api/cube/core/cube_manager.py:62-70 | if node k raises, nothing with id k or above is stored, and strictly fewer nodes than the full table are stored |
| `CubeCore.OnlyTrainingAndMonitoringNodesHandle` | api/cube/core/cube_manager.py:136-146 | of the nine table nodes, exactly vertex_7 and vertex_8 reach a handler |
| `CubeCore.CubeManager.AddTrainingData` | api/cube/core/cube_manager.py:99-105 | the queue grows by exactly one task (node id, payload, timestamp) at the back, with no check of the id; earlier tasks are unchanged |
| `CubeCore.Consume` | api/cube/core/cube_manager.py:76-84 | a dequeued task is delivered iff its node id is in the table, and is dropped otherwise; a delivered payload reaches a handler iff the node's role has one |
| `CubeCore.CubeManager.ProcessNextTrainingTask` | api/cube/core/cube_manager.py:74-87 | one consumer iteration removes exactly the front task, never re-queues it, and consumes it against the current table; on an empty queue it waits and changes nothing |
| `CubeCore.Drain` | api/cube/core/cube_manager.py:74-87 | repeated iterations take one step per task until the queue or the iteration budget runs out |
| `CubeCore.CubeManager.RunConsumer` | api/cube/core/cube_manager.py:72-87 | running the consumer loop yields the steps of `Drain` on the old queue and leaves exactly the tasks not yet taken |
| `CubeCore.DrainIsFifo` | api/cube/core/cube_manager.py:74-84 | the i-th consumer iteration handles the i-th submitted task |
| `CubeCore.HandlersSeeSubmissionOrder` | api/cube/core/cube_manager.py:74-84 | handlers receive exactly the payloads of the tasks whose node exists and has a handler, in submission order |
| `CubeCore.UnknownTargetIsDropped` | api/cube/core/cube_manager.py:80-84 | every task aimed at an id with no node is dropped, never delivered |
| `CubeCore.LaterSubmissionKeepsEarlierSteps` | api/cube/core/cube_manager.py:99-105 | appending a task later does not change how the tasks already queued are consumed |
| `CubeCore.CubeManager.MonitorDependenciesOnce` | api/cube/core/cube_manager.py:89-97 | one sweep visits every node of the table exactly once and leaves every node's status and dependencies as they were |
| `CubeCore.CubeManager.GetNodeStatus` | api/cube/core/cube_manager.py:107-112 | the lookup fails with NodeNotFound iff the id is not in the table; otherwise it reports the stored node's fields (its id equals the key) |
| `StandaloneServer.HandlePeerDiscovery` | services/standalone/cube_server.py:178-184 | exactly one reply iff `peer_id` is truthy, and that reply has just the type `peer_ack` and this server's instance id |
| `StandaloneServer.CreateRequestOf` | services/standalone/cube_server.py:152-157 | a `create_cube` message asks for its own `cube_id` and `name` (None when missing), type "standalone", and its `config` or `{}` |
| `StandaloneServer.ProcessMessage` | services/standalone/cube_server.py:148-176 | at most one reply; no reply iff the message is an object whose tag is unknown or missing, or an object tagged peer discovery with a falsy `peer_id` (a message that is not an object gets an `error` reply); every reply is one of four kinds; the reply is `error` iff handling raised, and then it carries `str(e)`; `create_cube` and `list_cubes` answer with the manager's result; every `peer_ack` is this server's own |
| `StandaloneServer.PeerAckIgnoresPeerIdAndBackend` | services/standalone/cube_server.py:178-184 | two peer discoveries with any truthy `peer_id`s, under any manager states, get the same single `peer_ack` |
| `StandaloneServer.Replies` | services/standalone/cube_server.py:139-142 | a connection sends at most one reply per inbound message, and every reply is one of the four kinds |
| `StandaloneServer.RepliesAppend` | services/standalone/cube_server.py:139-142 | answering two stretches of a conversation in turn sends the replies of the first followed by those of the second |
| `StandaloneServer.RepliesCount` | services/standalone/cube_server.py:148-176 | a conversation gets exactly as many replies as it has inbound messages that are not silent |
| `StandaloneServer.PeerAcksCarryInstanceId` | services/standalone/cube_server.py:178-184 | every `peer_ack` sent on a connection carries the id fixed at construction |
| `StandaloneServer.StandaloneCubeServer.constructor` | services/standalone/cube_server.py:39-41 | a new server has the given instance id and no connections |
| `StandaloneServer.StandaloneCubeServer.HandleWebsocketConnection` | services/standalone/cube_server.py:135-146 | the connection's replies are the conversation's replies in order, and when it ends the set of connections is what it was before, minus this one |
| `StandaloneServer.StandaloneCubeServer.BroadcastMessage` | services/standalone/cube_server.py:186-191 | every open connection is sent the message exactly once, a failure on one client does not stop the others, the clients reached are exactly those whose send did not fail, and the set of connections is not changed |
| `StandaloneServer.OncePerClient` | services/standalone/cube_server.py:186-191 | as many recipients as sends means no client is sent the message twice |
| `StandaloneServer.StandaloneCubeServer.CubeStatus` | services/standalone/cube_server.py:70-79 | the status body reports "active", the instance id, the given timestamp, and a `connected_clients` equal to the number of open connections |
| `StandaloneServer.CreateRequestFromBody` | services/standalone/cube_server.py:88-93 | cube creation passes the fresh id, the requested name, the requested cube type and the requested configuration to the manager |
| `StandaloneServer.CreateCube` | services/standalone/cube_server.py:84-101 | the response is `{cube_id, status: "created", timestamp}` with the id the manager reports, iff the manager returned; otherwise it is a 500 carrying `str(e)` |
| `StandaloneServer.GetCubeInfo` | services/standalone/cube_server.py:103-115 | the manager's answer is returned iff it is truthy; a falsy answer gives 404 "Cube not found"; an `HTTPException` raised by the manager is passed on with its own status code and detail; any other exception gives 500 carrying `str(e)` |
| `StandaloneServer.CubeEnvelope` | services/standalone/cube_server.py:124-129 | the broadcast envelope has exactly the fields type, cube_id, data and timestamp, taken from the request |
| `StandaloneServer.StandaloneCubeServer.SendCubeMessage` | services/standalone/cube_server.py:117-133 | the cube envelope goes once to every open connection, the clients reached are those whose send did not fail, and the response is `{status: "message_sent", cube_id}` whatever the sends did |

## Left out

- Async scheduling is left out: `asyncio.create_task`, the `asyncio.sleep` pacing of both loops (the `cache_ttl` delay of the sweep), and the interleaving of the loops with requests. The loops are repeated calls of their step methods. A consumer step on an empty queue returns `Idle` where `get()` would suspend.
- `CubeManager.initialize` (`api/cube/core/cube_manager.py:27-46`) is not modelled. It builds a `KWebSocketServer` from the `k_tools` imports, which are not part of this model, and as written it stops with `KeyError` before reaching `_initialize_nodes` (see above). Its log-and-re-raise `except` and the start of the two background loops are therefore not modelled either. `get_config` is not modelled; only `max_nodes` (9) is taken from `api/cube/config/cube_config.py`. The `config` a node receives is never read, so the model does not carry it.
- `_handle_training_data` and `_handle_monitoring_data` are not defined in the repository's code. They are a handler that may raise, given by a flag per task. What they do with the payload is not modelled.
- The cube manager the server imports (`sim.services.cube.manager`) is not part of this model. Its `create_scada_cube`, `list_cubes` and `get_cube_info` are the `Backend` oracle. `create_scada_cube` is reduced to the `cube_id` of its result.
- The web plumbing is not modelled: FastAPI routing, CORS, the HTML page, request-body validation by pydantic (422 responses), and the uvicorn bootstrap.
- Logging is not modelled. Ids from `uuid4()` and timestamps from `utcnow()` are parameters.
- `StandaloneServer.ProcessMessage`: sends on the client's own websocket are assumed to succeed. In the code, a failing send of the `error` reply escapes `process_message` and ends that connection's receive loop.
- `StandaloneServer.StandaloneCubeServer.HandleWebsocketConnection`: a failing `accept()` is not modelled, and neither are broadcasts that reach this connection while it is open. The inbound sequence ends where `receive_json` raises on disconnect.
- `StandaloneServer.StandaloneCubeServer.BroadcastMessage`: the order in which a Python `set` is iterated is not modelled. Neither is the error raised when the set changes size during the loop, which is only reachable through concurrency. For the same reason the 500 branch of `send_cube_message` is not modelled.
- `StandaloneServer.StandaloneCubeServer.CubeStatus`: the 500 branch of `get_cube_status` is not modelled, because nothing in its body can raise.
- `CubeCore.CubeManager.MonitorDependenciesOnce`: the order of the sweep (dict insertion order) is left open. The sweep's `try` is not modelled, because `check_dependencies` cannot raise.
- `CubeCore.CubeManager.GetNodeStatus`: the `ValueError` text `Node {id} not found` is represented by `NodeNotFound(id)`.
- `CubeCore.CubeNode.Initialize`: whether the role-specific set-up raises is a parameter. As written, the body of `initialize` only assigns the status and logs, so with no node raising (`FullTopology`) the model gives the code's actual behaviour.
- JSON floating-point numbers are not modelled.
- `CubeCore.CubeManager.AddTrainingData`: the queued task holds a copy of the payload. In the code it holds the caller's own `data` dict (`api/cube/core/cube_manager.py:101-105`), so a change the caller makes to that dict after submitting reaches the handler. This aliasing is not modelled.
- `CubeCore.CubeNode.GetStatus`: the snapshot holds a copy of the dependency list. In the code it holds the node's own list (`api/cube/core/cube_manager.py:160`), so changing the snapshot's list changes the node. This aliasing is not modelled.

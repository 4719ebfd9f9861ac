/**
 * The standalone cube server of services/standalone/cube_server.py: the
 * websocket message dispatcher, peer discovery, the broadcast hub, and the
 * bodies of the REST handlers for status, cube creation, cube lookup and
 * sending a message to a cube.
 *
 * The cube manager the server delegates to is not part of this model; each
 * call into it is an oracle (`Backend`) that returns a value or raises.
 * Identifiers from `uuid4()` and timestamps from `datetime.utcnow()` are
 * parameters.
 */
module StandaloneServer {
  import opened JsonValues
  import Sets

  /** A JSON object sent over a websocket or returned from an endpoint. */
  type Message = Dict

  /** A websocket connection, known only by its identity. */
  datatype Client = Client(handle: nat)

  /** The arguments of `create_scada_cube(cube_id, name, scada_type, configuration)`. */
  datatype CreateRequest = CreateRequest(cubeId: Json, name: Json, scadaType: string, configuration: Json)

  /**
   * What `get_cube_info` of the external manager does: return a value, raise
   * an `HTTPException` (with its status code and detail), or raise any other
   * exception (with its `str(e)`).
   */
  datatype Lookup = Found(info: Json) | RaisedHttp(statusCode: int, detail: string) | RaisedOther(message: string)

  /**
   * The external cube manager at the moment one request is handled: what
   * `create_scada_cube` (the `cube_id` of the created cube), `list_cubes`
   * and `get_cube_info` would return or raise.
   */
  datatype Backend = Backend(
    createScadaCube: CreateRequest -> Attempt<Json>,
    listCubes: Attempt<Json>,
    getCubeInfo: string -> Lookup)

  /** One message received on a websocket, with the state of the external manager while it is handled. */
  datatype Inbound = Inbound(data: Json, backend: Backend)

  /** One send of `broadcast_message`: to whom, what, and whether `send_json` returned. */
  datatype Send = Send(to: Client, message: Message, delivered: bool)

  /** The outcome of a REST handler: a JSON body, or the `HTTPException` it raises. */
  datatype HttpResponse = Ok(body: Json) | HttpError(statusCode: int, detail: string)

  /** The body of `POST /api/cube/create` (`CubeConfig`). */
  datatype CubeConfigBody = CubeConfigBody(name: string, cubeType: string, config: Dict)

  /** The body of `POST /api/cube/{cube_id}/message` (`CubeMessage`). */
  datatype CubeMessageBody = CubeMessageBody(messageType: string, data: Dict)

  // ---------------------------------------------------------------------
  // Reply envelopes
  // ---------------------------------------------------------------------

  function CubeCreated(cubeId: Json): Message {
    map["type" := JStr("cube_created"), "cube_id" := cubeId, "status" := JStr("success")]
  }

  function CubeList(cubes: Json): Message {
    map["type" := JStr("cube_list"), "cubes" := cubes]
  }

  function PeerAck(instanceId: string): Message {
    map["type" := JStr("peer_ack"), "instance_id" := JStr(instanceId)]
  }

  function ErrorReply(message: string): Message {
    map["type" := JStr("error"), "message" := JStr(message)]
  }

  /** The `type` tag of a message; `None` when it has none. */
  function Tag(m: Message): Json {
    Get(m, "type")
  }

  /** The four kinds of reply a websocket client can get. */
  predicate IsReply(m: Message) {
    Tag(m) in {JStr("cube_created"), JStr("cube_list"), JStr("peer_ack"), JStr("error")}
  }

  /** The Python type name of a decoded JSON value that is not an object. */
  function PyTypeName(v: Json): string
    requires !v.JObject?
  {
    match v
    case JNull => "NoneType"
    case JBool(_) => "bool"
    case JInt(_) => "int"
    case JStr(_) => "str"
    case JArray(_) => "list"
  }

  /** `str(e)` of the `AttributeError` that `data.get(...)` raises when `data` is not a `dict`. */
  function NoGetMessage(v: Json): string
    requires !v.JObject?
  {
    "'" + PyTypeName(v) + "' object has no attribute 'get'"
  }

  // ---------------------------------------------------------------------
  // Websocket message handling
  // ---------------------------------------------------------------------

  /**
   * `handle_peer_discovery`: a `peer_ack` carrying the server's own id
   * when `peer_id` is truthy, and nothing otherwise.
   */
  function HandlePeerDiscovery(instanceId: string, data: Dict): (sent: seq<Message>)
    ensures |sent| <= 1
    ensures sent != [] <==> Truthy(Get(data, "peer_id"))
    ensures sent != [] ==>
      sent[0].Keys == {"type", "instance_id"} && Tag(sent[0]) == JStr("peer_ack") && sent[0]["instance_id"] == JStr(instanceId)
  {
    if Truthy(Get(data, "peer_id")) then [PeerAck(instanceId)] else []
  }

  /** The arguments `process_message` passes to `create_scada_cube` for a `create_cube` message. */
  function CreateRequestOf(data: Dict): (r: CreateRequest)
    ensures r.cubeId == (if "cube_id" in data then data["cube_id"] else JNull)
    ensures r.name == (if "name" in data then data["name"] else JNull)
    ensures r.scadaType == "standalone"
    ensures r.configuration == (if "config" in data then data["config"] else JObject(map[]))
  {
    CreateRequest(Get(data, "cube_id"), Get(data, "name"), "standalone", GetOr(data, "config", JObject(map[])))
  }

  /**
   * When handling `data` raises inside the `try` of `process_message`:
   * `data` is not a `dict`, or the manager call its tag selects raises.
   */
  predicate HandlingRaises(data: Json, backend: Backend) {
    !data.JObject?
    || (Tag(data.fields) == JStr("create_cube") && backend.createScadaCube(CreateRequestOf(data.fields)).Raised?)
    || (Tag(data.fields) == JStr("list_cubes") && backend.listCubes.Raised?)
  }

  /** When `process_message` sends nothing: an unknown or missing tag, or peer discovery without a truthy `peer_id`. */
  predicate Silent(data: Json) {
    data.JObject?
    && (Tag(data.fields) !in {JStr("create_cube"), JStr("list_cubes"), JStr("peer_discovery")}
        || (Tag(data.fields) == JStr("peer_discovery") && !Truthy(Get(data.fields, "peer_id"))))
  }

  /**
   * `process_message`: the messages sent back on the same websocket for
   * one inbound message. Sends are assumed to succeed here.
   */
  function ProcessMessage(instanceId: string, data: Json, backend: Backend): (sent: seq<Message>)
    ensures |sent| <= 1
    ensures sent == [] <==> Silent(data)
    ensures sent != [] ==> IsReply(sent[0])
    ensures sent != [] && Tag(sent[0]) == JStr("error") <==> HandlingRaises(data, backend)
    ensures sent != [] && Tag(sent[0]) == JStr("peer_ack") ==> sent[0] == PeerAck(instanceId)
    ensures !data.JObject? ==> sent == [ErrorReply(NoGetMessage(data))]
    ensures data.JObject? && Tag(data.fields) == JStr("create_cube") ==>
      match backend.createScadaCube(CreateRequestOf(data.fields))
      case Returned(cubeId) => sent == [CubeCreated(cubeId)]
      case Raised(e) => sent == [ErrorReply(e)]
    ensures data.JObject? && Tag(data.fields) == JStr("list_cubes") ==>
      match backend.listCubes
      case Returned(cubes) => sent == [CubeList(cubes)]
      case Raised(e) => sent == [ErrorReply(e)]
    ensures data.JObject? && Tag(data.fields) == JStr("peer_discovery") ==>
      sent == HandlePeerDiscovery(instanceId, data.fields)
  {
    if !data.JObject? then [ErrorReply(NoGetMessage(data))]
    else
      var tag := Tag(data.fields);
      if tag == JStr("create_cube") then
        match backend.createScadaCube(CreateRequestOf(data.fields))
        case Returned(cubeId) => [CubeCreated(cubeId)]
        case Raised(e) => [ErrorReply(e)]
      else if tag == JStr("list_cubes") then
        match backend.listCubes
        case Returned(cubes) => [CubeList(cubes)]
        case Raised(e) => [ErrorReply(e)]
      else if tag == JStr("peer_discovery") then HandlePeerDiscovery(instanceId, data.fields)
      else []
  }

  /**
   * Every `peer_ack` one server sends is the same message: it carries the
   * id fixed at construction, whatever the `peer_id` was and whatever
   * state the external manager is in.
   */
  lemma PeerAckIgnoresPeerIdAndBackend(instanceId: string, d1: Dict, d2: Dict, b1: Backend, b2: Backend)
    requires Tag(d1) == JStr("peer_discovery") && Tag(d2) == JStr("peer_discovery")
    requires Truthy(Get(d1, "peer_id")) && Truthy(Get(d2, "peer_id"))
    ensures ProcessMessage(instanceId, JObject(d1), b1) == ProcessMessage(instanceId, JObject(d2), b2) == [PeerAck(instanceId)]
  {
  }

  /** The replies to a sequence of inbound messages on one connection, in order. */
  function Replies(instanceId: string, inbound: seq<Inbound>): (sent: seq<Message>)
    ensures |sent| <= |inbound|
    ensures forall i :: 0 <= i < |sent| ==> IsReply(sent[i])
  {
    if inbound == [] then []
    else
      var last := inbound[|inbound| - 1];
      Replies(instanceId, inbound[..|inbound| - 1]) + ProcessMessage(instanceId, last.data, last.backend)
  }

  /** Handling two stretches of a conversation one after the other sends the replies of each, in order. */
  lemma {:induction false} RepliesAppend(instanceId: string, a: seq<Inbound>, b: seq<Inbound>)
    ensures Replies(instanceId, a + b) == Replies(instanceId, a) + Replies(instanceId, b)
    decreases |b|
  {
    if b == [] {
      assert a + b == a;
    } else {
      var front := b[..|b| - 1];
      assert (a + b)[..|a + b| - 1] == a + front;
      assert (a + b)[|a + b| - 1] == b[|b| - 1];
      RepliesAppend(instanceId, a, front);
    }
  }

  /** How many of the inbound messages are not silent. */
  function Answered(inbound: seq<Inbound>): (n: nat)
    ensures n <= |inbound|
  {
    if inbound == [] then 0
    else Answered(inbound[..|inbound| - 1]) + (if Silent(inbound[|inbound| - 1].data) then 0 else 1)
  }

  /** A conversation gets exactly one reply per inbound message that is not silent. */
  lemma {:induction false} RepliesCount(instanceId: string, inbound: seq<Inbound>)
    ensures |Replies(instanceId, inbound)| == Answered(inbound)
  {
    if inbound != [] {
      RepliesCount(instanceId, inbound[..|inbound| - 1]);
    }
  }

  /** Every `peer_ack` among `sent` is the one carrying `instanceId`. */
  predicate OwnPeerAcks(sent: seq<Message>, instanceId: string) {
    forall i :: 0 <= i < |sent| && Tag(sent[i]) == JStr("peer_ack") ==> sent[i] == PeerAck(instanceId)
  }

  /** Every `peer_ack` in a conversation carries the server's own id. */
  lemma {:induction false} PeerAcksCarryInstanceId(instanceId: string, inbound: seq<Inbound>)
    ensures OwnPeerAcks(Replies(instanceId, inbound), instanceId)
  {
    if inbound != [] {
      var front := inbound[..|inbound| - 1];
      var last := inbound[|inbound| - 1];
      PeerAcksCarryInstanceId(instanceId, front);
      var earlier := Replies(instanceId, front);
      var reply := ProcessMessage(instanceId, last.data, last.backend);
      var sent := Replies(instanceId, inbound);
      assert sent == earlier + reply;
      forall i | 0 <= i < |sent| && Tag(sent[i]) == JStr("peer_ack")
        ensures sent[i] == PeerAck(instanceId)
      {
        if i < |earlier| {
          assert sent[i] == earlier[i];
        } else {
          assert reply != [] && sent[i] == reply[0];
        }
      }
    }
  }

  // ---------------------------------------------------------------------
  // Broadcast
  // ---------------------------------------------------------------------

  /** The clients a sequence of sends was addressed to. */
  function Recipients(attempts: seq<Send>): set<Client> {
    if attempts == [] then {}
    else Recipients(attempts[..|attempts| - 1]) + {attempts[|attempts| - 1].to}
  }

  /** The clients that a sequence of sends reached. */
  function Reached(attempts: seq<Send>): set<Client> {
    if attempts == [] then {}
    else
      var last := attempts[|attempts| - 1];
      Reached(attempts[..|attempts| - 1]) + (if last.delivered then {last.to} else {})
  }

  /** Every send of the sequence carried `message`. */
  predicate AllCarry(attempts: seq<Send>, message: Message) {
    attempts == [] || (AllCarry(attempts[..|attempts| - 1], message) && attempts[|attempts| - 1].message == message)
  }

  /** One more send adds its client to the recipients, and to the reached clients when it was delivered. */
  lemma AppendSend(attempts: seq<Send>, send: Send, message: Message)
    ensures Recipients(attempts + [send]) == Recipients(attempts) + {send.to}
    ensures Reached(attempts + [send]) == Reached(attempts) + (if send.delivered then {send.to} else {})
    ensures AllCarry(attempts + [send], message) <==> AllCarry(attempts, message) && send.message == message
  {
    assert (attempts + [send])[..|attempts|] == attempts;
  }

  /** Every addressed client is a recipient, and there are no more recipients than sends. */
  lemma {:induction false} RecipientsBound(attempts: seq<Send>)
    ensures |Recipients(attempts)| <= |attempts|
    ensures forall i :: 0 <= i < |attempts| ==> attempts[i].to in Recipients(attempts)
  {
    if attempts != [] {
      var front := attempts[..|attempts| - 1];
      RecipientsBound(front);
      assert forall i :: 0 <= i < |front| ==> attempts[i] == front[i];
    }
  }

  /** When there are as many recipients as sends, no client got the message twice. */
  lemma {:induction false} OncePerClient(attempts: seq<Send>)
    requires |Recipients(attempts)| == |attempts|
    ensures forall i, j :: 0 <= i < j < |attempts| ==> attempts[i].to != attempts[j].to
  {
    if attempts != [] {
      var front := attempts[..|attempts| - 1];
      var last := attempts[|attempts| - 1];
      RecipientsBound(front);
      if last.to in Recipients(front) {
        assert false;
      }
      OncePerClient(front);
      assert forall i :: 0 <= i < |front| ==> attempts[i] == front[i];
    }
  }

  /**
   * The broadcast loop so far: the clients not yet in `pending` got one
   * send each, and those outside `failing` were reached.
   */
  predicate BroadcastSoFar(attempts: seq<Send>, pending: set<Client>, connections: set<Client>, failing: set<Client>, message: Message) {
    pending <= connections
    && AllCarry(attempts, message)
    && Recipients(attempts) == connections - pending
    && |attempts| + |pending| == |connections|
    && Reached(attempts) == (connections - pending) - failing
  }

  /** Sending to one more pending client keeps the broadcast loop's invariant. */
  lemma BroadcastStep(attempts: seq<Send>, pending: set<Client>, connections: set<Client>, failing: set<Client>, message: Message, c: Client)
    requires BroadcastSoFar(attempts, pending, connections, failing, message) && c in pending
    ensures BroadcastSoFar(attempts + [Send(c, message, c !in failing)], pending - {c}, connections, failing, message)
  {
    var send := Send(c, message, c !in failing);
    assert AllCarry(attempts + [send], message) by {
      AppendSend(attempts, send, message);
    }
    assert Recipients(attempts + [send]) == connections - (pending - {c}) by {
      AppendSend(attempts, send, message);
    }
    assert Reached(attempts + [send]) == (connections - (pending - {c})) - failing by {
      AppendSend(attempts, send, message);
    }
    assert |pending - {c}| == |pending| - 1;
  }

  // ---------------------------------------------------------------------
  // REST handler bodies that do not depend on the server's state
  // ---------------------------------------------------------------------

  /**
   * `get_cube_info`: the manager's answer, 404 "Cube not found" when that
   * answer is falsy, an `HTTPException` from the manager passed on as it is,
   * and 500 with `str(e)` for any other exception.
   */
  function GetCubeInfo(cubeId: string, backend: Backend): (r: HttpResponse)
    ensures r.Ok? <==> backend.getCubeInfo(cubeId).Found? && Truthy(backend.getCubeInfo(cubeId).info)
    ensures r.Ok? ==> r.body == backend.getCubeInfo(cubeId).info
    ensures backend.getCubeInfo(cubeId).Found? && !Truthy(backend.getCubeInfo(cubeId).info) ==>
      r == HttpError(404, "Cube not found")
    ensures backend.getCubeInfo(cubeId).RaisedHttp? ==>
      r == HttpError(backend.getCubeInfo(cubeId).statusCode, backend.getCubeInfo(cubeId).detail)
    ensures backend.getCubeInfo(cubeId).RaisedOther? ==> r == HttpError(500, backend.getCubeInfo(cubeId).message)
  {
    match backend.getCubeInfo(cubeId)
    case RaisedHttp(code, detail) => HttpError(code, detail)
    case RaisedOther(e) => HttpError(500, e)
    case Found(info) => if Truthy(info) then Ok(info) else HttpError(404, "Cube not found")
  }

  /** The arguments `create_cube` passes to `create_scada_cube`, given the fresh `uuid4()` string. */
  function CreateRequestFromBody(body: CubeConfigBody, newCubeId: string): (r: CreateRequest)
    ensures r.cubeId == JStr(newCubeId) && r.name == JStr(body.name)
    ensures r.scadaType == body.cubeType && r.configuration == JObject(body.config)
  {
    CreateRequest(JStr(newCubeId), JStr(body.name), body.cubeType, JObject(body.config))
  }

  /**
   * `create_cube`: `{cube_id, status: "created", timestamp}` with the id
   * the manager reports, or 500 with `str(e)` when it raises.
   */
  function CreateCube(body: CubeConfigBody, newCubeId: string, timestamp: string, backend: Backend): (r: HttpResponse)
    ensures r.Ok? <==> backend.createScadaCube(CreateRequestFromBody(body, newCubeId)).Returned?
    ensures r.Ok? ==> r.body.JObject? && r.body.fields.Keys == {"cube_id", "status", "timestamp"}
    ensures r.Ok? ==> r.body.fields["cube_id"] == backend.createScadaCube(CreateRequestFromBody(body, newCubeId)).value
    ensures r.Ok? ==> r.body.fields["status"] == JStr("created") && r.body.fields["timestamp"] == JStr(timestamp)
    ensures r.HttpError? ==> r.statusCode == 500
    ensures r.HttpError? ==> r.detail == backend.createScadaCube(CreateRequestFromBody(body, newCubeId)).message
  {
    match backend.createScadaCube(CreateRequestFromBody(body, newCubeId))
    case Raised(e) => HttpError(500, e)
    case Returned(cubeId) =>
      Ok(JObject(map["cube_id" := cubeId, "status" := JStr("created"), "timestamp" := JStr(timestamp)]))
  }

  /** The message `send_cube_message` broadcasts. */
  function CubeEnvelope(cubeId: string, body: CubeMessageBody, timestamp: string): (m: Message)
    ensures m.Keys == {"type", "cube_id", "data", "timestamp"}
    ensures m["type"] == JStr(body.messageType) && m["cube_id"] == JStr(cubeId)
    ensures m["data"] == JObject(body.data) && m["timestamp"] == JStr(timestamp)
  {
    map["type" := JStr(body.messageType), "cube_id" := JStr(cubeId),
        "data" := JObject(body.data), "timestamp" := JStr(timestamp)]
  }

  // ---------------------------------------------------------------------
  // The server
  // ---------------------------------------------------------------------

  /** `StandaloneCubeServer`: its id and the set of open websocket connections. */
  class StandaloneCubeServer {
    const instanceId: string
    var activeConnections: set<Client>

    /** `__init__`: `instanceId` is the `uuid4()` drawn once; no client is connected. */
    constructor (instanceId: string)
      ensures this.instanceId == instanceId && activeConnections == {}
    {
      this.instanceId := instanceId;
      activeConnections := {};
    }

    /** `get_cube_status`: the body reports how many websocket clients are connected. */
    function CubeStatus(timestamp: string): (body: Message)
      reads this
      ensures body.Keys == {"status", "instance_id", "connected_clients", "timestamp"}
      ensures body["connected_clients"] == JInt(|activeConnections|)
      ensures body["status"] == JStr("active") && body["instance_id"] == JStr(instanceId)
      ensures body["timestamp"] == JStr(timestamp)
    {
      map["status" := JStr("active"), "instance_id" := JStr(instanceId),
          "connected_clients" := JInt(|activeConnections|), "timestamp" := JStr(timestamp)]
    }

    /**
     * `handle_websocket_connection`: registers `ws`, answers each inbound
     * message in turn until the client goes away (the end of `inbound`),
     * then unregisters it in `finally`.
     */
    method HandleWebsocketConnection(ws: Client, inbound: seq<Inbound>) returns (sent: seq<Message>)
      modifies this
      ensures sent == Replies(instanceId, inbound)
      ensures activeConnections == old(activeConnections) - {ws}
    {
      activeConnections := activeConnections + {ws};
      sent := [];
      var i := 0;
      while i < |inbound|
        invariant 0 <= i <= |inbound|
        invariant activeConnections == old(activeConnections) + {ws}
        invariant sent == Replies(instanceId, inbound[..i])
      {
        var reply := ProcessMessage(instanceId, inbound[i].data, inbound[i].backend);
        assert inbound[..i + 1][..i] == inbound[..i];
        sent := sent + reply;
        i := i + 1;
      }
      assert inbound[..i] == inbound;
      activeConnections := activeConnections - {ws};
    }

    /**
     * `broadcast_message`: one send to every open connection; a send to a
     * client in `failing` raises, is logged, and the loop goes on. The set
     * of connections is not changed.
     */
    method BroadcastMessage(message: Message, failing: set<Client>) returns (attempts: seq<Send>)
      ensures AllCarry(attempts, message)
      ensures Recipients(attempts) == activeConnections && |attempts| == |activeConnections|
      ensures Reached(attempts) == activeConnections - failing
    {
      var connections := activeConnections;
      attempts := [];
      var pending := connections;
      while pending != {}
        invariant BroadcastSoFar(attempts, pending, connections, failing, message)
        decreases pending
      {
        var c := Sets.Pick(pending);
        BroadcastStep(attempts, pending, connections, failing, message, c);
        attempts := attempts + [Send(c, message, c !in failing)];
        pending := pending - {c};
      }
    }

    /**
     * `send_cube_message`: broadcasts the cube envelope and answers
     * `{status: "message_sent", cube_id}` whatever the individual sends did.
     */
    method SendCubeMessage(cubeId: string, body: CubeMessageBody, timestamp: string, failing: set<Client>)
      returns (response: HttpResponse, attempts: seq<Send>)
      ensures response == Ok(JObject(map["status" := JStr("message_sent"), "cube_id" := JStr(cubeId)]))
      ensures Recipients(attempts) == activeConnections
      ensures Reached(attempts) == activeConnections - failing
      ensures AllCarry(attempts, CubeEnvelope(cubeId, body, timestamp)) && |attempts| == |activeConnections|
    {
      attempts := BroadcastMessage(CubeEnvelope(cubeId, body, timestamp), failing);
      response := Ok(JObject(map["status" := JStr("message_sent"), "cube_id" := JStr(cubeId)]));
    }
  }
}

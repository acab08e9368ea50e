/**
 * The values the handler works with: payload models, handler functions, the
 * inbound envelope and the frames sent back.
 */
module Messages {
  import opened Wrappers
  import opened JsonValues

  /** A message type tag such as "chat". */
  type Tag = string

  /**
   * A pydantic model class: its `__name__` and the JSON schema
   * `TypeAdapter(model).json_schema()` gives once `$defs` is removed.
   */
  datatype PayloadModel = PayloadModel(name: string, schema: Json)

  /** A handler coroutine function, identified by its name, with its `__doc__`. */
  datatype Handler = Handler(name: string, doc: Option<string>)

  /** One value of the `handlers` dict: the handler and its payload model. */
  datatype Registration = Registration(handler: Handler, model: PayloadModel)

  /** `WebSocketMessage`: the decoded envelope `{type, payload}`. */
  datatype Message = Message(msgType: Tag, payload: map<string, Json>)

  /** A validated payload: the model instance pydantic builds. */
  datatype Instance = Instance(fields: map<string, Json>)

  /** What awaiting a handler did: the frames it sent, then the exception it raised, if any. */
  datatype HandlerRun = HandlerRun(sent: seq<Json>, raised: Option<string>)

  /** One invocation of a handler with a validated payload. */
  datatype Call = Call(handler: Handler, payload: Instance)

  /** `payload_model(**payload)`: the instance, or `str()` of the validation error. */
  type Validator = (PayloadModel, map<string, Json>) -> Result<Instance, string>

  /** `await handler(websocket, validated_payload)` */
  type Behaviour = (Handler, Instance) -> HandlerRun

  /** A frame `{"type": t, "payload": {...}}` as passed to `send_json`. */
  function Frame(frameType: string, payload: seq<Member>): Json
  {
    Obj([Member("type", Str(frameType)), Member("payload", Obj(payload))])
  }

  /** The one shape of every error the dispatcher reports. */
  function ErrorFrame(message: string): Json
  {
    Frame("error", [Member("message", Str(message))])
  }

  /** An error frame has exactly the members "type" = "error" and "payload" = {"message": m}. */
  lemma ErrorFrameShape(message: string)
    ensures ErrorFrame(message).Obj?
    ensures Keys(ErrorFrame(message).members) == ["type", "payload"]
    ensures Get(ErrorFrame(message), "type") == Some(Str("error"))
    ensures Get(ErrorFrame(message), "payload") == Some(Obj([Member("message", Str(message))]))
    ensures Get(Get(ErrorFrame(message), "payload").value, "message") == Some(Str(message))
  {
    var ms := ErrorFrame(message).members;
    assert |"type"| != |"payload"|;
    assert Find(ms, "payload") == Find(ms[1..], "payload");
  }

  const UnknownTypePrefix := "Unknown message type: "
}

/**
 * The example application: one "chat" message type whose handler echoes the
 * message back, registered both inbound and outbound. Its scenarios are
 * consequences of the contracts of the registry and the dispatcher alone.
 */
module ExampleApp {
  import opened Wrappers
  import opened JsonValues
  import opened Dicts
  import opened Messages
  import opened SchemaDocs
  import opened WebSocketValidation

  /** The JSON schema pydantic gives for `ChatMessage`. */
  const ChatMessageSchema: Json := Obj([
    Member("properties", Obj([
      Member("message", Obj([Member("title", Str("Message")), Member("type", Str("string"))])),
      Member("room_id", Obj([Member("title", Str("Room Id")), Member("type", Str("string"))]))])),
    Member("required", Arr([Str("message"), Str("room_id")])),
    Member("title", Str("ChatMessage")),
    Member("type", Str("object"))])

  /** `class ChatMessage(BaseModel): message: str; room_id: str` */
  const ChatMessage := PayloadModel("ChatMessage", ChatMessageSchema)

  /** `handle_chat`, which has no doc-string. */
  const HandleChat := Handler("handle_chat", None)

  function MissingField(model: string, field: string): string
  {
    "1 validation error for " + model + "\n" + field + "\n  Field required"
  }

  function NotAString(model: string, field: string): string
  {
    "1 validation error for " + model + "\n" + field + "\n  Input should be a valid string"
  }

  /**
   * A stand-in for pydantic on models with the two string fields of ChatMessage:
   * each must be present and a string; other fields are ignored.
   */
  function ValidateChat(model: PayloadModel, payload: map<string, Json>): Result<Instance, string>
  {
    if "message" !in payload then Err(MissingField(model.name, "message"))
    else if !payload["message"].Str? then Err(NotAString(model.name, "message"))
    else if "room_id" !in payload then Err(MissingField(model.name, "room_id"))
    else if !payload["room_id"].Str? then Err(NotAString(model.name, "room_id"))
    else Ok(Instance(map["message" := payload["message"], "room_id" := payload["room_id"]]))
  }

  /** `handle_chat`: sends `{"type": "chat", "payload": {"message": "Received: " + message}}`. */
  function RunChat(h: Handler, v: Instance): HandlerRun
  {
    if "message" in v.fields && v.fields["message"].Str? then
      HandlerRun([Frame("chat", [Member("message", Str("Received: " + v.fields["message"].s))])], None)
    else
      HandlerRun([], Some("'ChatMessage' object has no attribute 'message'"))
  }

  /** The module-level setup: register `handle_chat` for "chat", then the outgoing "chat" schema. */
  method SetUp() returns (app: WebSocketHandler)
    ensures fresh(app) && app.Valid()
    ensures app.handlers == ExampleHandlers
    ensures app.outgoingMessageSchemas == ExampleOutgoing
  {
    app := new WebSocketHandler();
    var decorator := app.RegisterHandler("chat", ChatMessage);
    var _ := Decorate(decorator, HandleChat);
    assert app.handlers == Dict(["chat"], map["chat" := Registration(HandleChat, ChatMessage)]);
    app.RegisterOutgoingMessageSchema("chat", ChatMessage);
  }

  /** A valid chat message is echoed by the handler, and the dispatcher adds nothing. */
  method EchoScenario() returns (sent: seq<Json>, ghost called: Option<Call>)
    ensures called == Some(Call(HandleChat, Instance(map["message" := Str("hi"), "room_id" := Str("r1")])))
    ensures sent == [Frame("chat", [Member("message", Str("Received: hi"))])]
  {
    var app := SetUp();
    var websocket := new Channel();
    var payload := map["message" := Str("hi"), "room_id" := Str("r1")];
    called := app.Dispatch(websocket, Message("chat", payload), ValidateChat, RunChat);
    sent := websocket.sent;
    assert "Received: " + "hi" == "Received: hi";
  }

  /** A chat message without room_id gets one error frame naming the field, and no handler runs. */
  method MissingRoomScenario() returns (sent: seq<Json>, ghost called: Option<Call>)
    ensures called == None
    ensures sent == [ErrorFrame(MissingField("ChatMessage", "room_id"))]
  {
    var app := SetUp();
    var websocket := new Channel();
    called := app.Dispatch(websocket, Message("chat", map["message" := Str("hi")]), ValidateChat, RunChat);
    sent := websocket.sent;
  }

  /** A type nobody registered gets the unknown-type error frame. */
  method UnknownTypeScenario() returns (sent: seq<Json>, ghost called: Option<Call>)
    ensures called == None
    ensures sent == [ErrorFrame("Unknown message type: ping")]
  {
    var app := SetUp();
    var websocket := new Channel();
    called := app.Dispatch(websocket, Message("ping", map[]), ValidateChat, RunChat);
    sent := websocket.sent;
    assert UnknownTypePrefix + "ping" == "Unknown message type: ping";
  }

  /**
   * A handler that sends a frame and then raises: its frame goes out, followed by
   * one error frame with the exception's text.
   */
  method RaisingHandlerScenario(frame: Json, error: string) returns (sent: seq<Json>)
    ensures sent == [frame, ErrorFrame(error)]
  {
    var app := SetUp();
    var websocket := new Channel();
    var payload := map["message" := Str("hi"), "room_id" := Str("r1")];
    var run := (h: Handler, v: Instance) => HandlerRun([frame], Some(error));
    ghost var _ := app.Dispatch(websocket, Message("chat", payload), ValidateChat, run);
    sent := websocket.sent;
  }

  /** Registering a second handler for a tag silently replaces the first. */
  method ReRegistrationScenario(first: Handler, second: Handler, m1: PayloadModel, m2: PayloadModel)
    returns (found: Registration, order: seq<Tag>)
    ensures found == Registration(second, m2)
    ensures order == ["chat"]
  {
    var app := new WebSocketHandler();
    var d1 := app.RegisterHandler("chat", m1);
    var _ := Decorate(d1, first);
    assert app.handlers == Dict(["chat"], map["chat" := Registration(first, m1)]);
    var d2 := app.RegisterHandler("chat", m2);
    var _ := Decorate(d2, second);
    found := app.handlers.entries["chat"];
    order := app.handlers.order;
  }

  /**
   * The schema of the example: "chat" is documented once, as a server message,
   * because the outbound entry replaces the inbound one; ChatMessage is one component.
   */
  method SchemaScenario() returns (doc: SchemaDoc)
    ensures doc.messageTypes.order == ["chat"]
    ensures doc.messageTypes.entries == map["chat" := MessageDoc("Server message", Response("ChatMessage"))]
    ensures doc.components.order == ["ChatMessage"]
    ensures doc.components.entries == map["ChatMessage" := ChatMessageSchema]
  {
    var app := SetUp();
    var json;
    doc, json := app.GetSchema();
    ExampleMessageTypes(doc);
    ExampleComponents(doc);
  }

  const ExampleHandlers := Dict(["chat"], map["chat" := Registration(HandleChat, ChatMessage)])
  const ExampleOutgoing := Dict(["chat"], map["chat" := ChatMessage])

  lemma ExampleMessageTypes(doc: SchemaDoc)
    requires IsSchemaOf(doc, ExampleHandlers, ExampleOutgoing)
    ensures doc.messageTypes.order == ["chat"]
    ensures doc.messageTypes.entries == map["chat" := MessageDoc("Server message", Response("ChatMessage"))]
  {
    SharedTagMessageTypes(doc, "chat", HandleChat, ChatMessage);
  }

  /**
   * A tag that has a handler and an outgoing schema with the same model is
   * documented once, and only by its outbound entry: the request part is lost.
   */
  lemma SharedTagMessageTypes(doc: SchemaDoc, t: Tag, h: Handler, m: PayloadModel)
    requires IsSchemaOf(doc, Dict([t], map[t := Registration(h, m)]), Dict([t], map[t := m]))
    ensures doc.messageTypes == Dict([t], map[t := OutboundDoc(m)])
  {
    var messageTypes := doc.messageTypes;
    DedupSnoc([t], t);
    assert Dedup([t]) == [t];
    assert [t] + [t] == [t, t];
    assert messageTypes.order == [t];
    assert messageTypes.entries.Keys == {t};
  }

  lemma ExampleComponents(doc: SchemaDoc)
    requires IsSchemaOf(doc, ExampleHandlers, ExampleOutgoing)
    ensures doc.components.order == ["ChatMessage"]
    ensures doc.components.entries == map["ChatMessage" := ChatMessageSchema]
  {
    assert RequestModels(["chat"], ExampleHandlers.entries) == [ChatMessage];
    assert ResponseModels(["chat"], ExampleOutgoing.entries) == [ChatMessage];
    SingleModelComponents(doc.components, ChatMessage);
  }

  /** One model documented both ways gives one component. */
  lemma SingleModelComponents(components: Dict<string, Json>, m: PayloadModel)
    requires ComponentsOf([m], [m], components)
    ensures components.order == [m.name]
    ensures components.entries == map[m.name := m.schema]
  {
    assert Names([m] + [m]) == [m.name, m.name];
    DedupSnoc([m.name], m.name);
    assert Dedup([m.name]) == [m.name];
    assert LastNamed([m], m.name) == Some(m);
    assert components.entries.Keys == {m.name};
  }
}

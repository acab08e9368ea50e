/**
 * `WebSocketHandler`: a registry of message types, a dispatcher that routes one
 * envelope to its handler, and the synthesis of the schema document.
 */
module WebSocketValidation {
  import opened Wrappers
  import opened JsonValues
  import opened Dicts
  import opened Messages
  import opened SchemaDocs

  /** The connection: only what was handed to `send_json`, in order. */
  class Channel {
    var sent: seq<Json>

    constructor ()
      ensures sent == []
    {
      sent := [];
    }

    /** `await websocket.send_json(frame)` */
    method SendJson(frame: Json)
      modifies this
      ensures sent == old(sent) + [frame]
    {
      sent := sent + [frame];
    }
  }

  /** The closure `register_handler` returns: it registers into `owner` when applied. */
  datatype Decorator = Decorator(owner: WebSocketHandler, messageType: Tag, payloadModel: PayloadModel)

  class WebSocketHandler {
    var handlers: Dict<Tag, Registration>
    var incomingMessageSchemas: Dict<Tag, PayloadModel>
    var outgoingMessageSchemas: Dict<Tag, PayloadModel>

    /**
     * The three dicts are well formed, and the inbound schema table mirrors the
     * models of the handler table, key for key and in the same order.
     */
    ghost predicate Valid()
      reads this
    {
      && handlers.Valid()
      && incomingMessageSchemas.Valid()
      && outgoingMessageSchemas.Valid()
      && incomingMessageSchemas.order == handlers.order
      && forall t :: t in handlers.entries ==> incomingMessageSchemas.entries[t] == handlers.entries[t].model
    }

    constructor ()
      ensures Valid()
      ensures handlers == Dict([], map[]) && incomingMessageSchemas == Dict([], map[])
      ensures outgoingMessageSchemas == Dict([], map[])
    {
      handlers := Dict([], map[]);
      incomingMessageSchemas := Dict([], map[]);
      outgoingMessageSchemas := Dict([], map[]);
    }

    /** Returns the decorator; nothing is registered until it is applied. */
    method RegisterHandler(messageType: Tag, payloadModel: PayloadModel) returns (d: Decorator)
      ensures d.owner == this && d.messageType == messageType && d.payloadModel == payloadModel
    {
      d := Decorator(this, messageType, payloadModel);
    }

    /** Records an outbound schema; a second one for the same tag replaces the first. */
    method RegisterOutgoingMessageSchema(messageType: Tag, payloadModel: PayloadModel)
      requires Valid()
      modifies this
      ensures Valid()
      ensures outgoingMessageSchemas == old(outgoingMessageSchemas).Store(messageType, payloadModel)
      ensures outgoingMessageSchemas.entries == old(outgoingMessageSchemas.entries)[messageType := payloadModel]
      ensures handlers == old(handlers) && incomingMessageSchemas == old(incomingMessageSchemas)
    {
      outgoingMessageSchemas := outgoingMessageSchemas.Store(messageType, payloadModel);
    }

    /**
     * Routes one envelope. An unknown tag gets one error frame. Otherwise the payload
     * is validated; a failure gets one error frame and no handler runs. A valid payload
     * is handed to the handler once; its frames go out as sent, and if it raised, one
     * error frame follows them. Nothing is raised to the caller and the registry is
     * left as it was. The ghost result `called` only records which handler was
     * invoked, and with what; `dispatch` itself returns nothing.
     */
    method Dispatch(websocket: Channel, message: Message, validate: Validator, run: Behaviour)
      returns (ghost called: Option<Call>)
      modifies websocket
      ensures unchanged(this)
      ensures message.msgType !in handlers.entries ==>
                && called == None
                && websocket.sent == old(websocket.sent) + [ErrorFrame(UnknownTypePrefix + message.msgType)]
      ensures message.msgType in handlers.entries ==>
                var r := handlers.entries[message.msgType];
                match validate(r.model, message.payload)
                case Err(e) =>
                  && called == None
                  && websocket.sent == old(websocket.sent) + [ErrorFrame(e)]
                case Ok(v) =>
                  && called == Some(Call(r.handler, v))
                  && websocket.sent == old(websocket.sent) + run(r.handler, v).sent +
                       (match run(r.handler, v).raised
                        case None => []
                        case Some(e) => [ErrorFrame(e)])
    {
      if message.msgType !in handlers.entries {
        websocket.SendJson(ErrorFrame(UnknownTypePrefix + message.msgType));
        return None;
      }
      var Registration(handler, payloadModel) := handlers.entries[message.msgType];
      // Validation and the handler share one try block; both failures end the same way.
      var validated := validate(payloadModel, message.payload);
      match validated
      case Err(e) =>
        websocket.SendJson(ErrorFrame(e));
        called := None;
      case Ok(v) =>
        called := Some(Call(handler, v));
        var outcome := run(handler, v);
        // The handler's own sends over the same websocket.
        websocket.sent := websocket.sent + outcome.sent;
        match outcome.raised
        case None =>
        case Some(e) =>
          websocket.SendJson(ErrorFrame(e));
    }

    /**
     * Builds the schema document: inbound entries first, then outbound entries,
     * which replace an inbound entry of the same tag and add a component only
     * when its name is still absent.
     */
    method GetSchema() returns (doc: SchemaDoc, json: Json)
      requires Valid()
      ensures IsSchemaOf(doc, handlers, outgoingMessageSchemas)
      ensures json == Render(doc)
    {
      var inboundTable, outboundTable := handlers, outgoingMessageSchemas;
      var components: Dict<string, Json> := EmptyDict();
      var messageTypes: Dict<Tag, MessageDoc> := EmptyDict();

      ghost var inbound: seq<PayloadModel> := [];
      for i := 0 to |inboundTable.order|
        invariant inbound == RequestModels(inboundTable.order[..i], inboundTable.entries)
        invariant InboundTypesDone(inboundTable, i, messageTypes)
        invariant ComponentsOf(inbound, [], components)
      {
        var msgType := inboundTable.order[i];
        var Registration(handler, requestModel) := inboundTable.entries[msgType];
        RequestModelsSnoc(inboundTable.order, inboundTable.entries, i);
        InboundTypesStep(inboundTable, i, messageTypes);
        ComponentsInboundStep(inbound, components, requestModel);
        components := components.Store(requestModel.name, requestModel.schema);
        messageTypes := messageTypes.Store(msgType, MessageDoc(Description(handler), Request(requestModel.name)));
        inbound := inbound + [requestModel];
      }
      InboundComplete(inboundTable, outboundTable, inbound, components, messageTypes);

      ghost var outbound: seq<PayloadModel> := [];
      for j := 0 to |outboundTable.order|
        invariant outbound == ResponseModels(outboundTable.order[..j], outboundTable.entries)
        invariant OutboundTypesDone(inboundTable, outboundTable, j, messageTypes)
        invariant ComponentsOf(RequestModels(inboundTable.order, inboundTable.entries), outbound, components)
      {
        var msgType := outboundTable.order[j];
        var model := outboundTable.entries[msgType];
        ResponseModelsSnoc(outboundTable.order, outboundTable.entries, j);
        OutboundTypesStep(inboundTable, outboundTable, j, messageTypes);
        ComponentsOutboundStep(RequestModels(inboundTable.order, inboundTable.entries), outbound, components, model);
        if model.name !in components.entries {
          components := components.Store(model.name, model.schema);
        }
        messageTypes := messageTypes.Store(msgType, MessageDoc(ServerDescription, Response(model.name)));
        outbound := outbound + [model];
      }
      SchemaComplete(inboundTable, outboundTable, outbound, components, messageTypes);
      doc := SchemaDoc(messageTypes, components);
      json := Render(doc);
    }
  }

  /**
   * Applying the decorator to `func`: the handler table and the inbound schema
   * table get the entry for the tag, replacing any earlier one, and `func`
   * itself is returned.
   */
  method Decorate(d: Decorator, func: Handler) returns (r: Handler)
    requires d.owner.Valid()
    modifies d.owner
    ensures d.owner.Valid()
    ensures r == func
    ensures d.owner.handlers == old(d.owner.handlers).Store(d.messageType, Registration(func, d.payloadModel))
    ensures d.owner.handlers.entries == old(d.owner.handlers.entries)[d.messageType := Registration(func, d.payloadModel)]
    ensures d.owner.incomingMessageSchemas == old(d.owner.incomingMessageSchemas).Store(d.messageType, d.payloadModel)
    ensures d.owner.outgoingMessageSchemas == old(d.owner.outgoingMessageSchemas)
  {
    var owner := d.owner;
    owner.handlers := owner.handlers.Store(d.messageType, Registration(func, d.payloadModel));
    owner.incomingMessageSchemas := owner.incomingMessageSchemas.Store(d.messageType, d.payloadModel);
    r := func;
  }
}

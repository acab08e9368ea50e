/**
 * The schema document `get_schema` produces, and what it must contain as a
 * function of the registry: one entry per message type and one component per
 * payload model name.
 */
module SchemaDocs {
  import opened Wrappers
  import opened JsonValues
  import opened Dicts
  import opened Messages

  /** The direction-specific part of a message type entry. */
  datatype Payload = Request(payloadSchema: string) | Response(payloadSchema: string)

  /** One value of `message_types`. */
  datatype MessageDoc = MessageDoc(description: string, payload: Payload)

  /** The two dicts `get_schema` builds; `info` is a constant. */
  datatype SchemaDoc = SchemaDoc(messageTypes: Dict<Tag, MessageDoc>, components: Dict<string, Json>)

  const FallbackDescription := "No description available"
  const ServerDescription := "Server message"

  /** `handler.__doc__ or "No description available"`: a missing or empty doc-string falls back. */
  function Description(h: Handler): string
  {
    match h.doc
    case Some(d) => if d == "" then FallbackDescription else d
    case None => FallbackDescription
  }

  /** The entry for a type tag that only the inbound table documents. */
  function InboundDoc(r: Registration): MessageDoc
  {
    MessageDoc(Description(r.handler), Request(r.model.name))
  }

  /** The entry for a type tag of the outbound table. */
  function OutboundDoc(m: PayloadModel): MessageDoc
  {
    MessageDoc(ServerDescription, Response(m.name))
  }

  /** The payload models of the given inbound tags, in their order. */
  function RequestModels(tags: seq<Tag>, handlers: map<Tag, Registration>): seq<PayloadModel>
    requires forall t :: t in tags ==> t in handlers
  {
    if tags == [] then []
    else RequestModels(tags[..|tags| - 1], handlers) + [handlers[tags[|tags| - 1]].model]
  }

  /** The payload models of the given outbound tags, in their order. */
  function ResponseModels(tags: seq<Tag>, outgoing: map<Tag, PayloadModel>): seq<PayloadModel>
    requires forall t :: t in tags ==> t in outgoing
  {
    if tags == [] then []
    else ResponseModels(tags[..|tags| - 1], outgoing) + [outgoing[tags[|tags| - 1]]]
  }

  /** The `__name__` of each model, in order. */
  function Names(models: seq<PayloadModel>): (ns: seq<string>)
    ensures |ns| == |models|
    ensures forall i :: 0 <= i < |models| ==> ns[i] == models[i].name
  {
    if models == [] then [] else Names(models[..|models| - 1]) + [models[|models| - 1].name]
  }

  /** The last model in `models` whose name is `n`. */
  function LastNamed(models: seq<PayloadModel>, n: string): Option<PayloadModel>
  {
    if models == [] then None
    else if models[|models| - 1].name == n then Some(models[|models| - 1])
    else LastNamed(models[..|models| - 1], n)
  }

  /** The first model in `models` whose name is `n`. */
  function FirstNamed(models: seq<PayloadModel>, n: string): Option<PayloadModel>
  {
    if models == [] then None
    else
      var earlier := FirstNamed(models[..|models| - 1], n);
      if earlier.Some? then earlier
      else if models[|models| - 1].name == n then Some(models[|models| - 1])
      else None
  }

  /**
   * The schema documented under the name `n`: every inbound model overwrites the
   * component of its name, so the last inbound one wins; an outbound model is
   * only added when its name is still absent, so among those the first wins.
   */
  function ComponentSchema(inbound: seq<PayloadModel>, outbound: seq<PayloadModel>, n: string): Option<Json>
  {
    match LastNamed(inbound, n)
    case Some(m) => Some(m.schema)
    case None =>
      match FirstNamed(outbound, n)
      case Some(m) => Some(m.schema)
      case None => None
  }

  /**
   * `messageTypes` lists every tag of both tables, inbound tags first; a tag of the
   * outbound table has the server-message entry, any other tag its inbound entry.
   */
  ghost predicate MessageTypesOf(messageTypes: Dict<Tag, MessageDoc>,
                                 handlers: Dict<Tag, Registration>, outgoing: Dict<Tag, PayloadModel>)
  {
    && messageTypes.Valid()
    && messageTypes.order == Dedup(handlers.order + outgoing.order)
    && (forall t :: t in outgoing.entries ==>
          t in messageTypes.entries && messageTypes.entries[t] == OutboundDoc(outgoing.entries[t]))
    && (forall t :: t in handlers.entries && t !in outgoing.entries ==>
          t in messageTypes.entries && messageTypes.entries[t] == InboundDoc(handlers.entries[t]))
  }

  /** `components` documents exactly the names of `inbound` and `outbound`, each as ComponentSchema says. */
  ghost predicate ComponentsOf(inbound: seq<PayloadModel>, outbound: seq<PayloadModel>, components: Dict<string, Json>)
  {
    && components.Valid()
    && components.order == Dedup(Names(inbound + outbound))
    && forall n :: n in components.entries ==> ComponentSchema(inbound, outbound, n) == Some(components.entries[n])
  }

  /** `doc` is what `get_schema` must return for these `handlers` and outgoing schemas. */
  ghost predicate IsSchemaOf(doc: SchemaDoc, handlers: Dict<Tag, Registration>, outgoing: Dict<Tag, PayloadModel>)
    requires handlers.Valid() && outgoing.Valid()
  {
    && MessageTypesOf(doc.messageTypes, handlers, outgoing)
    && ComponentsOf(RequestModels(handlers.order, handlers.entries),
                    ResponseModels(outgoing.order, outgoing.entries), doc.components)
  }

  // ---------------------------------------------------------------------------
  // Facts about the specification functions above.

  lemma {:induction false} LastNamedIff(models: seq<PayloadModel>, n: string)
    ensures LastNamed(models, n).Some? <==> n in Names(models)
    ensures LastNamed(models, n).Some? ==> LastNamed(models, n).value in models && LastNamed(models, n).value.name == n
  {
    if models != [] {
      var p := models[..|models| - 1];
      LastNamedIff(p, n);
      assert Names(models) == Names(p) + [models[|models| - 1].name];
    }
  }

  lemma {:induction false} FirstNamedIff(models: seq<PayloadModel>, n: string)
    ensures FirstNamed(models, n).Some? <==> n in Names(models)
    ensures FirstNamed(models, n).Some? ==> FirstNamed(models, n).value in models && FirstNamed(models, n).value.name == n
  {
    if models != [] {
      var p := models[..|models| - 1];
      FirstNamedIff(p, n);
      assert Names(models) == Names(p) + [models[|models| - 1].name];
    }
  }

  lemma NamesAppend(a: seq<PayloadModel>, b: seq<PayloadModel>)
    ensures Names(a + b) == Names(a) + Names(b)
  {
  }

  /** The components are named exactly by the models of both tables. */
  lemma ComponentSchemaDefinedIff(inbound: seq<PayloadModel>, outbound: seq<PayloadModel>, n: string)
    ensures ComponentSchema(inbound, outbound, n).Some? <==> n in Names(inbound + outbound)
  {
    LastNamedIff(inbound, n);
    FirstNamedIff(outbound, n);
    NamesAppend(inbound, outbound);
  }

  lemma {:induction false} RequestModelsHas(tags: seq<Tag>, handlers: map<Tag, Registration>, t: Tag)
    requires forall u :: u in tags ==> u in handlers
    requires t in tags
    ensures handlers[t].model in RequestModels(tags, handlers)
  {
    var p := tags[..|tags| - 1];
    if t != tags[|tags| - 1] {
      assert t in p;
      RequestModelsHas(p, handlers, t);
    }
  }

  lemma {:induction false} ResponseModelsHas(tags: seq<Tag>, outgoing: map<Tag, PayloadModel>, t: Tag)
    requires forall u :: u in tags ==> u in outgoing
    requires t in tags
    ensures outgoing[t] in ResponseModels(tags, outgoing)
  {
    var p := tags[..|tags| - 1];
    if t != tags[|tags| - 1] {
      assert t in p;
      ResponseModelsHas(p, outgoing, t);
    }
  }

  lemma {:induction false} NamesHas(models: seq<PayloadModel>, m: PayloadModel)
    requires m in models
    ensures m.name in Names(models)
  {
    var i :| 0 <= i < |models| && models[i] == m;
    assert Names(models)[i] == m.name;
  }

  lemma RequestModelsSnoc(tags: seq<Tag>, handlers: map<Tag, Registration>, i: nat)
    requires forall t :: t in tags ==> t in handlers
    requires i < |tags|
    ensures RequestModels(tags[..i + 1], handlers) == RequestModels(tags[..i], handlers) + [handlers[tags[i]].model]
  {
    assert tags[..i + 1][..i] == tags[..i];
  }

  lemma ResponseModelsSnoc(tags: seq<Tag>, outgoing: map<Tag, PayloadModel>, i: nat)
    requires forall t :: t in tags ==> t in outgoing
    requires i < |tags|
    ensures ResponseModels(tags[..i + 1], outgoing) == ResponseModels(tags[..i], outgoing) + [outgoing[tags[i]]]
  {
    assert tags[..i + 1][..i] == tags[..i];
  }

  lemma NamesSnoc(models: seq<PayloadModel>, m: PayloadModel)
    ensures Names(models + [m]) == Names(models) + [m.name]
  {
  }

  lemma LastNamedSnoc(models: seq<PayloadModel>, m: PayloadModel, n: string)
    ensures LastNamed(models + [m], n) == if m.name == n then Some(m) else LastNamed(models, n)
  {
    assert (models + [m])[..|models|] == models;
  }

  lemma FirstNamedSnoc(models: seq<PayloadModel>, m: PayloadModel, n: string)
    ensures FirstNamed(models + [m], n) ==
              if FirstNamed(models, n).Some? then FirstNamed(models, n)
              else if m.name == n then Some(m) else None
  {
    assert (models + [m])[..|models|] == models;
  }

  // ---------------------------------------------------------------------------
  // The two loops of get_schema, one step at a time.

  /** An inbound model always writes the component of its name. */
  lemma ComponentsInboundStep(inbound: seq<PayloadModel>, components: Dict<string, Json>, m: PayloadModel)
    requires ComponentsOf(inbound, [], components)
    ensures ComponentsOf(inbound + [m], [], components.Store(m.name, m.schema))
  {
    var next := components.Store(m.name, m.schema);
    assert inbound + [] == inbound;
    assert inbound + [m] + [] == inbound + [m];
    NamesSnoc(inbound, m);
    DedupSnoc(Names(inbound), m.name);
    assert next.order == Dedup(Names(inbound + [m] + []));
    forall n | n in next.entries
      ensures ComponentSchema(inbound + [m], [], n) == Some(next.entries[n])
    {
      ComponentInboundValue(inbound, components, m, n);
    }
  }

  lemma ComponentInboundValue(inbound: seq<PayloadModel>, components: Dict<string, Json>, m: PayloadModel, n: string)
    requires ComponentsOf(inbound, [], components)
    requires n in components.Store(m.name, m.schema).entries
    ensures ComponentSchema(inbound + [m], [], n) == Some(components.Store(m.name, m.schema).entries[n])
  {
    LastNamedSnoc(inbound, m, n);
    if n != m.name {
      assert n in components.entries;
      assert ComponentSchema(inbound, [], n) == Some(components.entries[n]);
    }
  }

  /** Only the schema of a name not yet documented is added. */
  function AddIfAbsent(components: Dict<string, Json>, m: PayloadModel): Dict<string, Json>
    requires components.Valid()
  {
    if m.name in components.entries then components else components.Store(m.name, m.schema)
  }

  lemma ComponentsOutboundStep(inbound: seq<PayloadModel>, outbound: seq<PayloadModel>,
                               components: Dict<string, Json>, m: PayloadModel)
    requires ComponentsOf(inbound, outbound, components)
    ensures ComponentsOf(inbound, outbound + [m], AddIfAbsent(components, m))
  {
    var next := AddIfAbsent(components, m);
    NamesSnoc(inbound + outbound, m);
    assert inbound + (outbound + [m]) == (inbound + outbound) + [m];
    DedupSnoc(Names(inbound + outbound), m.name);
    ComponentSchemaDefinedIff(inbound, outbound, m.name);
    assert next.order == Dedup(Names(inbound + (outbound + [m])));
    forall n | n in next.entries
      ensures ComponentSchema(inbound, outbound + [m], n) == Some(next.entries[n])
    {
      ComponentOutboundValue(inbound, outbound, components, m, n);
    }
  }

  lemma ComponentOutboundValue(inbound: seq<PayloadModel>, outbound: seq<PayloadModel>,
                               components: Dict<string, Json>, m: PayloadModel, n: string)
    requires ComponentsOf(inbound, outbound, components)
    requires n in AddIfAbsent(components, m).entries
    ensures ComponentSchema(inbound, outbound + [m], n) == Some(AddIfAbsent(components, m).entries[n])
  {
    var before := ComponentSchema(inbound, outbound, n);
    FirstNamedSnoc(outbound, m, n);
    if n in components.entries {
      // The component was already there and keeps its schema.
      assert before == Some(components.entries[n]);
      assert AddIfAbsent(components, m).entries[n] == components.entries[n];
      assert ComponentSchema(inbound, outbound + [m], n) == before;
    } else {
      // A new name: this outbound model is the first of its name.
      assert n == m.name;
      assert n !in Dedup(Names(inbound + outbound));
      ComponentSchemaDefinedIff(inbound, outbound, n);
      assert before == None;
      assert LastNamed(inbound, n) == None && FirstNamed(outbound, n) == None;
    }
  }

  /** `messageTypes` holds the entries of the first `i` inbound tags. */
  ghost predicate InboundTypesDone(handlers: Dict<Tag, Registration>, i: nat, messageTypes: Dict<Tag, MessageDoc>)
    requires handlers.Valid()
  {
    && i <= |handlers.order|
    && messageTypes.Valid() && messageTypes.order == Dedup(handlers.order[..i])
    && forall t :: t in messageTypes.entries ==>
         t in handlers.entries && messageTypes.entries[t] == InboundDoc(handlers.entries[t])
  }

  lemma InboundTypesStep(handlers: Dict<Tag, Registration>, i: nat, messageTypes: Dict<Tag, MessageDoc>)
    requires handlers.Valid() && i < |handlers.order|
    requires InboundTypesDone(handlers, i, messageTypes)
    ensures InboundTypesDone(handlers, i + 1,
              messageTypes.Store(handlers.order[i], InboundDoc(handlers.entries[handlers.order[i]])))
  {
    DedupSnoc(handlers.order[..i], handlers.order[i]);
    assert handlers.order[..i + 1] == handlers.order[..i] + [handlers.order[i]];
  }

  /** `messageTypes` holds the entries of all inbound tags, then those of the first `j` outbound tags. */
  ghost predicate OutboundTypesDone(handlers: Dict<Tag, Registration>, outgoing: Dict<Tag, PayloadModel>, j: nat,
                                    messageTypes: Dict<Tag, MessageDoc>)
    requires handlers.Valid() && outgoing.Valid()
  {
    && j <= |outgoing.order|
    && messageTypes.Valid() && messageTypes.order == Dedup(handlers.order + outgoing.order[..j])
    && (forall t :: t in messageTypes.entries && t in outgoing.order[..j] ==>
          messageTypes.entries[t] == OutboundDoc(outgoing.entries[t]))
    && (forall t :: t in messageTypes.entries && t !in outgoing.order[..j] ==>
          t in handlers.entries && messageTypes.entries[t] == InboundDoc(handlers.entries[t]))
  }

  /** The first loop done: the second loop starts from its result. */
  lemma InboundComplete(handlers: Dict<Tag, Registration>, outgoing: Dict<Tag, PayloadModel>,
                        inbound: seq<PayloadModel>, components: Dict<string, Json>, messageTypes: Dict<Tag, MessageDoc>)
    requires handlers.Valid() && outgoing.Valid()
    requires inbound == RequestModels(handlers.order[..|handlers.order|], handlers.entries)
    requires InboundTypesDone(handlers, |handlers.order|, messageTypes)
    requires ComponentsOf(inbound, [], components)
    ensures OutboundTypesDone(handlers, outgoing, 0, messageTypes)
    ensures ComponentsOf(RequestModels(handlers.order, handlers.entries), ResponseModels([], outgoing.entries), components)
  {
    assert handlers.order[..|handlers.order|] == handlers.order;
    assert handlers.order + outgoing.order[..0] == handlers.order;
  }

  /** An outbound tag's entry replaces whatever entry the tag had. */
  lemma OutboundTypesStep(handlers: Dict<Tag, Registration>, outgoing: Dict<Tag, PayloadModel>, j: nat,
                          messageTypes: Dict<Tag, MessageDoc>)
    requires handlers.Valid() && outgoing.Valid() && j < |outgoing.order|
    requires OutboundTypesDone(handlers, outgoing, j, messageTypes)
    ensures OutboundTypesDone(handlers, outgoing, j + 1,
              messageTypes.Store(outgoing.order[j], OutboundDoc(outgoing.entries[outgoing.order[j]])))
  {
    var msgType := outgoing.order[j];
    var next := messageTypes.Store(msgType, OutboundDoc(outgoing.entries[msgType]));
    var done, done' := outgoing.order[..j], outgoing.order[..j + 1];
    assert done' == done + [msgType];
    DedupSnoc(handlers.order + done, msgType);
    assert handlers.order + done' == (handlers.order + done) + [msgType];
    forall t | t in next.entries && t in done'
      ensures next.entries[t] == OutboundDoc(outgoing.entries[t])
    {
      if t != msgType {
        assert t in done;
      }
    }
    forall t | t in next.entries && t !in done'
      ensures t in handlers.entries && next.entries[t] == InboundDoc(handlers.entries[t])
    {
      assert t != msgType && t !in done;
    }
  }

  /** Both loops done: the document meets the specification. */
  lemma SchemaComplete(handlers: Dict<Tag, Registration>, outgoing: Dict<Tag, PayloadModel>, outbound: seq<PayloadModel>,
                       components: Dict<string, Json>, messageTypes: Dict<Tag, MessageDoc>)
    requires handlers.Valid() && outgoing.Valid()
    requires outbound == ResponseModels(outgoing.order[..|outgoing.order|], outgoing.entries)
    requires OutboundTypesDone(handlers, outgoing, |outgoing.order|, messageTypes)
    requires ComponentsOf(RequestModels(handlers.order, handlers.entries), outbound, components)
    ensures IsSchemaOf(SchemaDoc(messageTypes, components), handlers, outgoing)
  {
    assert outgoing.order[..|outgoing.order|] == outgoing.order;
  }

  // ---------------------------------------------------------------------------
  // What the specification implies.

  /** The message types are exactly the tags of the inbound and the outbound tables. */
  lemma MessageTypeKeys(doc: SchemaDoc, handlers: Dict<Tag, Registration>, outgoing: Dict<Tag, PayloadModel>)
    requires handlers.Valid() && outgoing.Valid()
    requires IsSchemaOf(doc, handlers, outgoing)
    ensures forall t :: t in doc.messageTypes.entries <==> t in handlers.entries || t in outgoing.entries
  {
  }

  /** Every `payload_schema` a message type names is a key of `components.schemas`. */
  lemma PayloadSchemasResolve(doc: SchemaDoc, handlers: Dict<Tag, Registration>, outgoing: Dict<Tag, PayloadModel>)
    requires handlers.Valid() && outgoing.Valid()
    requires IsSchemaOf(doc, handlers, outgoing)
    ensures forall t :: t in doc.messageTypes.entries ==>
              doc.messageTypes.entries[t].payload.payloadSchema in doc.components.entries
  {
    var inbound := RequestModels(handlers.order, handlers.entries);
    var outbound := ResponseModels(outgoing.order, outgoing.entries);
    NamesAppend(inbound, outbound);
    forall t | t in doc.messageTypes.entries
      ensures doc.messageTypes.entries[t].payload.payloadSchema in doc.components.entries
    {
      if t in outgoing.entries {
        ResponseModelsHas(outgoing.order, outgoing.entries, t);
        NamesHas(outbound, outgoing.entries[t]);
      } else {
        RequestModelsHas(handlers.order, handlers.entries, t);
        NamesHas(inbound, handlers.entries[t].model);
      }
    }
  }

  /** There is only one document that meets the specification: `get_schema` is determined by the registry. */
  lemma SchemaIsUnique(d1: SchemaDoc, d2: SchemaDoc, handlers: Dict<Tag, Registration>, outgoing: Dict<Tag, PayloadModel>)
    requires handlers.Valid() && outgoing.Valid()
    requires IsSchemaOf(d1, handlers, outgoing) && IsSchemaOf(d2, handlers, outgoing)
    ensures d1 == d2
  {
    MessageTypesUnique(d1.messageTypes, d2.messageTypes, handlers, outgoing);
    ComponentsUnique(d1.components, d2.components,
                     RequestModels(handlers.order, handlers.entries), ResponseModels(outgoing.order, outgoing.entries));
  }

  lemma MessageTypesUnique(mt1: Dict<Tag, MessageDoc>, mt2: Dict<Tag, MessageDoc>,
                           handlers: Dict<Tag, Registration>, outgoing: Dict<Tag, PayloadModel>)
    requires MessageTypesOf(mt1, handlers, outgoing) && MessageTypesOf(mt2, handlers, outgoing)
    requires handlers.Valid() && outgoing.Valid()
    ensures mt1 == mt2
  {
    var m1, m2 := mt1.entries, mt2.entries;
    assert m1.Keys == m2.Keys;
    forall t | t in m1 ensures m1[t] == m2[t] {
      assert t in Dedup(handlers.order + outgoing.order);
      assert t in handlers.entries || t in outgoing.entries;
    }
    assert m1 == m2;
  }

  lemma ComponentsUnique(c1: Dict<string, Json>, c2: Dict<string, Json>, inbound: seq<PayloadModel>, outbound: seq<PayloadModel>)
    requires ComponentsOf(inbound, outbound, c1) && ComponentsOf(inbound, outbound, c2)
    ensures c1 == c2
  {
    assert c1.entries.Keys == c2.entries.Keys;
    assert c1.entries == c2.entries;
  }

  // ---------------------------------------------------------------------------
  // The document as JSON, in the shape get_schema returns it.

  const Info: Json := Obj([
    Member("title", Str("WebSocket API Schema")),
    Member("version", Str("1.0.0")),
    Member("description", Str("Schema for WebSocket messages"))])

  function MessageDocJson(d: MessageDoc): Json
  {
    var direction := match d.payload
      case Request(name) => Member("request", Obj([Member("payload_schema", Str(name))]))
      case Response(name) => Member("response", Obj([Member("payload_schema", Str(name))]));
    Obj([Member("description", Str(d.description)), direction])
  }

  function SchemaJson(j: Json): Json { j }

  /** The members of a dict, in its key order. */
  function DictMembers<V>(order: seq<string>, entries: map<string, V>, render: V -> Json): seq<Member>
    requires forall k :: k in order ==> k in entries
  {
    if order == [] then []
    else [Member(order[0], render(entries[order[0]]))] + DictMembers(order[1..], entries, render)
  }

  function Render(doc: SchemaDoc): Json
    requires doc.messageTypes.Valid() && doc.components.Valid()
  {
    Obj([
      Member("info", Info),
      Member("message_types", Obj(DictMembers(doc.messageTypes.order, doc.messageTypes.entries, MessageDocJson))),
      Member("components", Obj([
        Member("schemas", Obj(DictMembers(doc.components.order, doc.components.entries, SchemaJson)))]))])
  }

  lemma {:induction false} DictMembersLayout<V>(order: seq<string>, entries: map<string, V>, render: V -> Json)
    requires forall k :: k in order ==> k in entries
    ensures Keys(DictMembers(order, entries, render)) == order
    ensures forall k :: k in order ==> Find(DictMembers(order, entries, render), k) == Some(render(entries[k]))
  {
    if order != [] {
      DictMembersLayout(order[1..], entries, render);
      var ms := DictMembers(order, entries, render);
      assert ms[1..] == DictMembers(order[1..], entries, render);
      forall k | k in order ensures Find(ms, k) == Some(render(entries[k])) {
        if k != order[0] {
          assert k in order[1..];
        }
      }
    }
  }

  /**
   * The rendered document has the members "info", "message_types" and "components",
   * in that order, and "info" is the fixed block.
   */
  lemma RenderedTop(doc: SchemaDoc)
    requires doc.messageTypes.Valid() && doc.components.Valid()
    ensures Keys(Render(doc).members) == ["info", "message_types", "components"]
    ensures Get(Render(doc), "info") == Some(Info)
    ensures Get(Render(doc), "message_types") ==
              Some(Obj(DictMembers(doc.messageTypes.order, doc.messageTypes.entries, MessageDocJson)))
    ensures Get(Render(doc), "components") ==
              Some(Obj([Member("schemas", Obj(DictMembers(doc.components.order, doc.components.entries, SchemaJson)))]))
  {
    var top := Render(doc).members;
    assert |"info"| != |"message_types"| && |"info"| != |"components"| && |"message_types"| != |"components"|;
    assert Find(top, "components") == Find(top[1..], "components") == Find(top[2..], "components");
    assert Find(top, "message_types") == Find(top[1..], "message_types");
  }

  /** Every message type is found under its tag in "message_types", in dict order. */
  lemma RenderedMessageTypes(doc: SchemaDoc)
    requires doc.messageTypes.Valid() && doc.components.Valid()
    ensures Get(Render(doc), "message_types").Some?
    ensures var mt := Get(Render(doc), "message_types").value;
            && mt.Obj? && Keys(mt.members) == doc.messageTypes.order
            && forall t :: t in doc.messageTypes.entries ==>
                 Get(mt, t) == Some(MessageDocJson(doc.messageTypes.entries[t]))
  {
    RenderedTop(doc);
    DictMembersLayout(doc.messageTypes.order, doc.messageTypes.entries, MessageDocJson);
  }

  /** Every component schema is found under its name in "components"."schemas", in dict order. */
  lemma RenderedComponents(doc: SchemaDoc)
    requires doc.messageTypes.Valid() && doc.components.Valid()
    ensures Get(Render(doc), "components").Some?
    ensures Get(Get(Render(doc), "components").value, "schemas").Some?
    ensures var cs := Get(Get(Render(doc), "components").value, "schemas").value;
            && cs.Obj? && Keys(cs.members) == doc.components.order
            && forall n :: n in doc.components.entries ==> Get(cs, n) == Some(doc.components.entries[n])
  {
    RenderedTop(doc);
    DictMembersLayout(doc.components.order, doc.components.entries, SchemaJson);
  }

  /**
   * In the returned JSON, the entry of a tag with an outbound schema is exactly
   * `{"description": "Server message", "response": {...}}`: no "request" of an inbound
   * registration survives. A tag only registered inbound has its description and "request".
   */
  lemma RenderedEntry(doc: SchemaDoc, handlers: Dict<Tag, Registration>, outgoing: Dict<Tag, PayloadModel>, t: Tag)
    requires handlers.Valid() && outgoing.Valid()
    requires IsSchemaOf(doc, handlers, outgoing)
    requires t in handlers.entries || t in outgoing.entries
    ensures Get(Render(doc), "message_types").Some?
    ensures t in outgoing.entries ==>
              Get(Get(Render(doc), "message_types").value, t) == Some(Obj([
                Member("description", Str("Server message")),
                Member("response", Obj([Member("payload_schema", Str(outgoing.entries[t].name))]))]))
    ensures t !in outgoing.entries ==>
              Get(Get(Render(doc), "message_types").value, t) == Some(Obj([
                Member("description", Str(Description(handlers.entries[t].handler))),
                Member("request", Obj([Member("payload_schema", Str(handlers.entries[t].model.name))]))]))
  {
    RenderedMessageTypes(doc);
  }
}

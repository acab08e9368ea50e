# WebSocket message validation, modelled in Dafny

This project models `WebSocketHandler`, the registry at the centre of the
`websocket_validation` library for FastAPI. The registry has three parts:

- handlers, each keyed by a message-type tag and paired with the payload model
  that validates it;
- outgoing message models, kept for documentation only;
- operations that use them:
  - register a handler (through a decorator);
  - register an outgoing schema;
  - dispatch an incoming `{"type", "payload"}` message to its handler, or
    send back an error frame;
  - build the JSON schema document that describes every message type.

Modules:

- `Wrappers`: `Option` and `Result`.
- `JsonValues`: JSON values. Objects are ordered member lists, which is how
  they are serialised. `Find`, `Get` and `Keys` look inside them.
- `Dicts`: Python dictionaries as a map plus their insertion order.
  - `Store` behaves like `d[k] = v`: a new key is appended, and an existing
    key keeps its place.
  - `Dedup` gives the reference order, where each key sits at its first
    occurrence.
- `Messages`: the values of the domain.
  - payload models are a name plus a JSON schema with `$defs` removed;
  - handlers are a name plus an optional `__doc__`;
  - also registrations, messages and validated instances;
  - the shape of the frames sent back, including the error frame.
- `SchemaDocs`: the schema document.
  - A declarative specification: `IsSchemaOf` links the document to the
    registry.
  - The lemmas about it: which keys appear, the order of the keys, which
    component each name comes from, the fact that every `payload_schema`
    reference resolves, and uniqueness.
  - Its JSON rendering, and the layout of that rendering.
- `WebSocketValidation`:
  - `Channel` stands in for the websocket. It records every frame sent.
  - `Dispatch` has a ghost result that only records which handler was called
    and with which validated payload; the Python method returns nothing.
  - The class `WebSocketHandler` has the three dictionaries as fields and
    the methods of the source.
  - `Decorator` is the closure that `register_handler` returns, and
    `Decorate` applies it.
- `ExampleApp`: the example application in `main.py`:
  - the `chat` handler, and `chat` registered as an outgoing type;
  - concrete dispatch scenarios;
  - the concrete schema document.

Parameters stand in for what the library calls but does not define:

- payload validation (pydantic's `payload_model(**payload)`) is a `Validator`
  function;
- the body of a handler coroutine is a `Behaviour` function, which gives the
  frames the handler sends and whether it raises;
- the JSON schema of a model (`TypeAdapter(model).json_schema()` minus
  `$defs`) is the model's `schema` field.

Behaviours of the code that the model keeps:

- A handler that raises after it has already sent frames leaves those frames
  on the socket, and the error frame follows them.
- When one tag is both an incoming and an outgoing type, the outgoing entry
  replaces the incoming entry in `message_types` outright, so the tag loses
  its `request` part.
- `handler.__doc__ or "No description available"` also falls back when the
  doc-string is empty, because the empty string is falsy in Python.

## Model

| member | source | states |
|---|---|---|
| Dicts.Dict.Store | src/websocket_validation/handler.py:35-36 | dictionary assignment keeps the dictionary well formed: the map is updated at `k`, an existing key stays where it was, and a new key is appended to the order |
| Messages.ErrorFrameShape | src/websocket_validation/handler.py:72-75 | an error frame is an object with keys exactly `type` then `payload`; `type` is `"error"` and `payload` is `{"message": m}` |
| WebSocketValidation.WebSocketHandler.constructor | src/websocket_validation/handler.py:21-24 | a new handler has three empty dictionaries and satisfies the registry invariant |
| WebSocketValidation.WebSocketHandler.RegisterHandler | src/websocket_validation/handler.py:26-38 | `register_handler` changes nothing itself; it returns a decorator bound to this handler, the tag and the model |
| WebSocketValidation.Decorate | src/websocket_validation/handler.py:34-37 | applying the decorator stores `(func, model)` under the tag in `handlers` and the model under the tag in `incoming_message_schemas`, leaves the outgoing schemas alone, keeps the invariant and returns `func` unchanged |
| WebSocketValidation.WebSocketHandler.RegisterOutgoingMessageSchema | src/websocket_validation/handler.py:40-48 | the model is stored under the tag in the outgoing schemas; handlers and incoming schemas are unchanged |
| WebSocketValidation.WebSocketHandler.Dispatch | src/websocket_validation/handler.py:50-75 | an unknown tag sends exactly one error frame `Unknown message type: <tag>` and calls nothing; a failed validation sends one error frame with the validator's message and calls nothing; a valid payload calls the registered handler with the validated instance (recorded in the ghost result `called`), and the socket receives the handler's frames followed by an error frame with the exception text if the handler raised; the registry is unchanged |
| WebSocketValidation.WebSocketHandler.GetSchema | src/websocket_validation/handler.py:77-129 | the returned JSON is `Render(doc)` (the `info` / `message_types` / `components` object of lines 119-129), and `doc` satisfies `IsSchemaOf`: `message_types` has one entry per registered tag, in dictionary order, with its description and `request`, and each outgoing tag overrides it with `Server message` and `response`; `components` maps each model name to the schema of the last incoming model of that name, else the first outgoing one, in first-occurrence order |
| SchemaDocs.LastNamedIff | src/websocket_validation/handler.py:91-95 | a model of a given name is found among the incoming models exactly when that name occurs in them, and the model found has that name |
| SchemaDocs.FirstNamedIff | src/websocket_validation/handler.py:106-110 | a model of a given name is found among the outgoing models exactly when that name occurs in them, and the model found has that name |
| SchemaDocs.ComponentSchemaDefinedIff | src/websocket_validation/handler.py:95-110 | a name has a component schema exactly when some incoming or outgoing model carries that name |
| SchemaDocs.NamesAppend | src/websocket_validation/handler.py:91-110 | the model names of two model lists taken together are the names of the first followed by the names of the second |
| SchemaDocs.ComponentsInboundStep | src/websocket_validation/handler.py:93-95 | storing an incoming model's schema under its name keeps `components` equal to the specification with one more incoming model |
| SchemaDocs.ComponentsOutboundStep | src/websocket_validation/handler.py:107-110 | storing an outgoing model's schema only when its name is absent keeps `components` equal to the specification with one more outgoing model |
| SchemaDocs.InboundTypesStep | src/websocket_validation/handler.py:98-103 | documenting one more registered tag keeps `message_types` equal to the incoming entries so far, keyed in dictionary order |
| SchemaDocs.OutboundTypesStep | src/websocket_validation/handler.py:112-117 | documenting one more outgoing tag overrides or appends its entry and keeps every other entry as the specification requires |
| SchemaDocs.MessageTypeKeys | src/websocket_validation/handler.py:91-117 | the message types documented are exactly the tags that have a handler or an outgoing schema |
| SchemaDocs.PayloadSchemasResolve | src/websocket_validation/handler.py:95-117 | every `payload_schema` named in `message_types` is a key of `components`, so no `payload_schema` name dangles |
| SchemaDocs.SchemaIsUnique | src/websocket_validation/handler.py:77-129 | the specification determines the document: any two documents that satisfy it for the same registry are equal, key order included |
| SchemaDocs.RenderedTop | src/websocket_validation/handler.py:119-129 | the rendered document has top-level keys `info`, `message_types`, `components` in that order; `info` is the fixed title/version/description object and `components` is `{"schemas": …}` |
| SchemaDocs.RenderedMessageTypes | src/websocket_validation/handler.py:98-117 | the rendered `message_types` object lists the tags in dictionary order, and each tag maps to its rendered entry |
| SchemaDocs.RenderedComponents | src/websocket_validation/handler.py:126-128 | the rendered `schemas` object lists the model names in dictionary order, and each name maps to its schema |
| SchemaDocs.RenderedEntry | src/websocket_validation/handler.py:98-117 | in a schema of the registry, an outgoing tag renders as `{"description": "Server message", "response": {"payload_schema": name}}`; any other registered tag renders with the handler's description and a `request` part |
| ExampleApp.SetUp | main.py:6-22 | after the example's registrations the registry holds `chat → (handle_chat, ChatMessage)` and the outgoing schema `chat → ChatMessage` |
| ExampleApp.EchoScenario | main.py:14-19 | a valid `chat` message calls `handle_chat` with the validated payload, and the only frame sent is the handler's `{"type": "chat", "payload": {"message": "Received: hi"}}` |
| ExampleApp.MissingRoomScenario | main.py:9-11 | a `chat` payload without `room_id` calls no handler and sends back exactly one error frame with the validation message |
| ExampleApp.UnknownTypeScenario | src/websocket_validation/handler.py:58-63 | an unregistered tag calls no handler and sends exactly one error frame `Unknown message type: …` |
| ExampleApp.RaisingHandlerScenario | src/websocket_validation/handler.py:66-75 | a handler that sends a frame and then raises leaves both on the socket: its frame first, then the error frame |
| ExampleApp.ReRegistrationScenario | src/websocket_validation/handler.py:34-36 | registering a tag a second time replaces its handler and model and keeps a single key |
| ExampleApp.SchemaScenario | main.py:21-22 | the example's schema document has the single message type `chat`, documented as `Server message` with `response` `ChatMessage`, and the single component `ChatMessage` with its schema |
| ExampleApp.ExampleMessageTypes | src/websocket_validation/handler.py:112-117 | in the example the `chat` entry is the outgoing one, `Server message` with `response`, because the outgoing registration overrides the handler's |
| ExampleApp.SharedTagMessageTypes | src/websocket_validation/handler.py:98-117 | in any schema of a registry whose one tag has a handler and an outgoing schema with the same model, `message_types` is exactly that tag mapped to the outgoing entry (`Server message`, `response`): the request entry is replaced, not merged |
| ExampleApp.ExampleComponents | src/websocket_validation/handler.py:106-110 | in the example `components` has the single key `ChatMessage` with the model's schema |
| ExampleApp.SingleModelComponents | src/websocket_validation/handler.py:91-110 | when one model is both the only incoming and the only outgoing model, `components` has just its name, mapped to its schema |

## Left out

- Payload validation is a parameter (`Validator`). pydantic's coercion rules,
  its error-message formats and `WebSocketMessage` validation (lines 5-8) are
  not modelled.
- The schema of a model is a given JSON value. How `TypeAdapter.json_schema()`
  builds it is not modelled. Nested `$ref` pointers into the `$defs` that are
  removed are not followed either, so they may dangle in the real output.
- `async`/`await` and concurrent dispatch on one socket are not modelled.
  Dispatch runs to completion as one step.
- `websocket.send_json` is modelled as appending a frame to `Channel.sent`.
  Serialisation and a send that fails, including one that fails inside the
  error path, are not modelled.
- Only `Exception` is caught. A `BaseException` such as `CancelledError`
  propagates out of dispatch in Python. The model's `Behaviour` raises only
  catchable exceptions, so that case is not modelled.
- A payload model is its `__name__` plus its schema. Two distinct pydantic
  classes that agree on both are the same model here, also to the `Validator`.
- `TypeAdapter(model).json_schema()` can raise, and `get_schema` would pass
  that exception on. The model takes the schema as given, so `GetSchema`
  always returns.
- A handler is a name plus an optional doc-string. Its identity as a Python
  callable is not modelled.
- JSON numbers are integers. Floating point is not modelled.
- The example's websocket endpoint loop (`receive_json`, building
  `WebSocketMessage`) and the HTTP endpoint that serves the schema (main.py
  lines 25-36) are I/O and are not modelled.
- The package re-exports in `__init__.py` and the packaging metadata in
  `setup.py` are not part of this model.

# Docker MCP command dispatch, in Dafny

The Docker MCP server is a WebSocket server. Clients send it commands of the
form `{type, payload}`. `DockerMCP` (src/index.ts) routes each command to one
Docker operation, reads the operation's arguments from the payload, and sends
back exactly one `{type, payload, error?}` response on the socket that sent
the command. A new client is first greeted with an `info` response that lists
the 21 supported command names. The server keeps its connected sockets in
`clients`: a socket is added on connect and removed on close or on a transport
error.

This project models that dispatch layer and proves what it promises.

- `wrappers.dfy`, module `Wrappers`: `Option` and `Result`. `Result` works with `:-`, so a thrown value short-circuits the way an exception does.
- `js.dfy`, module `Js`: the JavaScript values the dispatcher handles, and only the semantics it relies on:
  - truthiness, which drives the `||` defaults;
  - `.` reads a field and throws a TypeError on `null`/`undefined`;
  - `?.` reads a field and does not throw;
  - `String(v)`, as used in template literals;
  - `error ? error.toString() : undefined` for the `error` field.
- `protocol.dfy`, module `Protocol`:
  - the 21 operations and their command names;
  - the `switch` from command name to operation;
  - the `getSupportedCommands` catalogue;
  - the response envelope;
  - `sendError` and the greeting.
- `router.dfy`, module `Router`: `handleCommand` and the `message` handler. Handling one message is one pure function, `OnMessage`. It produces the one response and the backend call it made, if any. It is given the outcome the awaited backend promise settles to.
  - Not every response needs the backend. "Unknown command", unreadable arguments and undecodable messages never call it.
  - The tables `Params`, `ReturnsBackendValue` and `EchoedField` state independently which arguments each command passes and what its success response carries. Lemmas tie the switch to them.
- `server.dfy`, module `Server`: the `connection`, `message`, `close` and `error` handlers.
  - `Step` is the effect of one event on the `clients` set and on what each socket was sent.
  - `Run` applies a whole event history.
  - The class `DockerMCP` holds `clients` and the per-socket outboxes as fields. Its handler methods update them in place and are proved equal to `Step`.

One behaviour of the source is worth knowing. `buildImage` reads `payload.options.t` for its echo only after the backend call has resolved. So a build whose `options` is missing is reported as `Failed to execute buildImage` even though the build was invoked and succeeded (`Router.ResolvedCommand`).

Two facts about the source shape the model:

- `getSupportedCommands` lists 21 names: 8 container, 4 image, 3 volume, 3 network and 3 system commands.
- A message that parses to `null` is answered `Failed to process command`, because `command.type` is read at src/index.ts:71, before the `try`. The rejected promise reaches the message handler's `catch`.

## Model

| member | source | states |
|---|---|---|
| `Js.Or` | src/index.ts:104-105 | JavaScript's logical or yields one of its two operands, and its result is truthy exactly when either operand is; so with a truthy fallback such as `100` or `'bridge'`, the backend never receives a falsy value |
| `Js.Get` | src/index.ts:82 | the definition of `.`: it throws the TypeError naming the field on `null` or `undefined` and reads the field otherwise; what line 82 then does is proved in `Router.ArgumentsFollowParams`, `Router.NullishPayload` and `Router.MissingPayload` |
| `Js.OptionalGet` | src/index.ts:77 | `payload?.all` never throws and is `undefined` on a nullish payload; otherwise it agrees with `.` |
| `Js.NatText` | src/index.ts:71 | `String(n)` of a natural number below 2^53, as `${command.type}` prints it: decimal digits that read back as `n`, with no leading zero (larger numbers: see "## Left out") |
| `Js.ToText` | src/index.ts:71 | `String(v)` as the template literals at lines 71, 202 and 207 compute it; a string prints unchanged (`Router.RouteByName`), a number through `Js.NatText` (the gaps for large numbers and own `toString` keys are under "## Left out") |
| `Js.ErrorText` | src/index.ts:219 | the `error` field is present exactly when the thrown value is truthy; an Error shows as `name: message` |
| `Protocol.OpNamed` | src/index.ts:74-203 | the operation a command name selects is the one bearing that name |
| `Protocol.NameRoundTrip` | src/index.ts:74-203 | every operation's name selects that operation, so the switch and the name table are inverses |
| `Protocol.NameInjective` | src/index.ts:74-203 | no two operations share a command name |
| `Protocol.SupportedCommands` | src/index.ts:223-255 | the catalogue has 21 entries, each of which the router handles |
| `Protocol.CatalogueIsRoutingTable` | src/index.ts:223-255 | a name is in the catalogue if and only if the router has a case for it |
| `Protocol.CatalogueDistinct` | src/index.ts:223-255 | the catalogue lists each command once |
| `Protocol.CatalogueOrder` | src/index.ts:225-254 | entries 0-7 are container, 8-11 image, 12-14 volume, 15-17 network and 18-20 system commands |
| `Protocol.ErrorResponse` | src/index.ts:215-221 | `sendError` builds type `error` with payload `{message}` only; `error` is present if and only if a truthy error was passed, and then holds its `toString()` |
| `Protocol.Greeting` | src/index.ts:35-42 | the greeting has type `info`, no `error`, and payload exactly `{name: 'docker', version: '0.1.0', commands: <catalogue>}` |
| `Router.Route` | src/index.ts:74 | the `switch (command.type)`: an operation is selected only by the string that is its name; `Router.RouteByName` and `Router.UnknownCommand` state both sides |
| `Router.Arguments` | src/index.ts:77-182 | the backend arguments each case reads, in source order; only a nullish payload can make the reads throw; the full table is `Router.ArgumentsFollowParams` and `Router.NullishPayload` |
| `Router.ResultTag` | src/index.ts:78-198 | the fixed success `type` of each case; its properties are `Router.ResultTagsDistinct` and `Router.ResultTagKinds` |
| `Router.Reply` | src/index.ts:76-199 | a success response carries the command's fixed result tag and no `error` field; once the arguments were read, only `buildImage` can still throw |
| `Router.Dispatch` | src/index.ts:73-208 | the `try`/`catch` of `handleCommand`: any backend call is the operation `type` routes to, and every response that is not an error comes from a backend call; the exact responses are `Router.UnknownCommand`, `Router.FailedCommand` and `Router.ResolvedCommand` |
| `Router.HandleCommand` | src/index.ts:70-209 | for a `type` that converts to a string without throwing (see "## Left out"), `handleCommand` rejects exactly when the command is `null` or `undefined`, with the TypeError for reading `type`, because line 71 is outside the `try` |
| `Router.OnMessage` | src/index.ts:44-52 | the `message` handler: a backend call happens only for a message that parsed to a non-nullish value; `Router.ProcessFailure` states its error path |
| `Router.ArgumentsFollowParams` | src/index.ts:76-183 | for a non-nullish payload, the backend receives exactly the parameter table's values: required fields as sent; `all`, `force`, `removeVolumes` falling back to `false`, `tail` to 100 and `driver` to `'bridge'` when falsy; the whole payload for `createContainer` |
| `Router.NullishPayload` | src/index.ts:77-182 | with a nullish payload, `listContainers` gets `all = false`; a command that reads a payload field throws the TypeError for its first field; the others run unchanged |
| `Router.SuccessPayload` | src/index.ts:76-199 | a success response carries the backend value (list/get/create/system), an echo of `{id}`, `{name}` or `{image}` (start/stop/restart/remove/pull), `{id, logs}` for logs, or `{tag: options.t}` for a build, which throws when `options` is nullish |
| `Router.ResultTagsDistinct` | src/index.ts:76-199 | no two commands share a result tag, so a success response's `type` identifies its command |
| `Router.ResultTagKinds` | src/index.ts:76-199 | no result tag is `error`, and only `getInfo`'s tag coincides with the greeting's `info` |
| `Router.UnknownCommand` | src/index.ts:201-203 | a `type` outside the catalogue (and, in JavaScript, one that converts to a string without throwing) gets `Unknown command: <type>` with no `error` field and no backend call, whatever the backend would return |
| `Router.RouteByName` | src/index.ts:74 | the command named after an operation selects it, and its `type` prints as that name |
| `Router.KnownCommandCallsItsOperation` | src/index.ts:74-200 | a known command invokes its own operation with the arguments read from the payload, or nothing when reading them throws; it never gets `Unknown command` |
| `Router.FailedCommand` | src/index.ts:205-208 | a rejected backend call, or a throw while reading arguments (then with no call), gives exactly `{type: 'error', payload: {message: 'Failed to execute <type>'}, error: toString(err)}` |
| `Router.ResolvedCommand` | src/index.ts:76-199 | a resolved backend call gives the success tag with no `error`, except a build whose `options` is nullish, which is reported failed after the call was made |
| `Router.MissingPayload` | src/index.ts:77-82 | without a payload, `listContainers` lists with `all = false`; a command reading `payload.<field>` gets `Failed to execute <type>` and makes no call |
| `Router.FalsyOptionsReplaced` | src/index.ts:110-178 | `tail: 0` becomes 100, `driver: ""` becomes `'bridge'`, `force: 0` becomes `false` |
| `Router.ProcessFailure` | src/index.ts:44-51 | among messages whose `type` and rejection values convert to strings without throwing (see "## Left out"), `Failed to process command` answers exactly the messages that fail to parse or parse to `null`/`undefined`; it carries the thrown value's text and makes no backend call |
| `Router.CallMatchesCommand` | src/index.ts:70-209 | any backend call a message causes is the operation its `type` names, with the parameter table's arguments |
| `Server.Step` | src/index.ts:30-62 | the effect of one connect, message, close or error event on `clients` and on what each socket was sent; its properties are `Server.StepPreservesGreeted`, `Server.StepIsLocal`, `Server.ReceiveAnswersOnce` and `Server.DisconnectIdempotent` |
| `Server.Run` | src/index.ts:30-62 | a whole event history applied from the empty server; its properties are `Server.RunRegistry`, `Server.RunOutbox`, `Server.RunSessions`, `Server.NoRepliesBeforeConnect` and `Server.GreetingFirst` |
| `Server.StepPreservesGreeted` | src/index.ts:30-42 | after any event, every client still has handlers, and every socket with handlers received the greeting first |
| `Server.StepIsLocal` | src/index.ts:30-62 | an event sends nothing to, and adds or removes no, socket other than its own |
| `Server.ReceiveAnswersOnce` | src/index.ts:44-52 | a message appends exactly one response to its own socket; `clients` is unchanged and the socket keeps its handlers, also after a parse failure |
| `Server.DisconnectIdempotent` | src/index.ts:54-62 | close and error remove only their own socket from `clients`, and a second removal changes nothing |
| `Server.RepliesCount` | src/index.ts:44-52 | one reply per message received on a socket |
| `Server.RunRegistry` | src/index.ts:30-62 | over any possible history, the sockets with handlers are exactly the connected ones, and `clients` is the connected sockets minus the closed or errored ones |
| `Server.RunOutbox` | src/index.ts:30-52 | over any possible history, each connected socket was sent the greeting then one response per message, in order, each computed from its own message |
| `Server.RunSessions` | src/index.ts:30-63 | over any possible history: a socket has handlers if and only if it connected; it was sent the greeting then one response per message, in order, each computed from its own message; `clients` is the connected sockets minus the closed or errored ones |
| `Server.NoRepliesBeforeConnect` | src/index.ts:30-44 | a socket that has not connected has been sent nothing, and none of its messages was answered |
| `Server.GreetingFirst` | src/index.ts:30-47 | a connected socket's first response is the greeting, and it has been sent one more response than it sent messages |
| `Server.DockerMCP.constructor` | src/index.ts:17 | the server starts with no clients and no sockets |
| `Server.DockerMCP.SendToClient` | src/index.ts:211-213 | appends one response to that socket's outbox; nothing else changes |
| `Server.DockerMCP.SendError` | src/index.ts:215-221 | appends the error envelope to that socket's outbox |
| `Server.DockerMCP.OnConnection` | src/index.ts:30-42 | adds the socket to `clients` and sends it the greeting alone; equals `Step` on a connect |
| `Server.DockerMCP.HandleMessage` | src/index.ts:44-52 | appends exactly the response `Router.OnMessage` computes and reports its backend call; equals `Step` on a message |
| `Server.DockerMCP.OnClose` | src/index.ts:54-57 | removes the socket from `clients` and sends nothing |
| `Server.DockerMCP.OnError` | src/index.ts:59-62 | removes the socket from `clients` and sends nothing |

## Left out

- The backend (src/docker-service.ts) is not modelled. A dispatch step is given the outcome the awaited call settles to, and returns the call it made. The backend's own parameter defaults are never used, because the router always passes every argument. Its pull and build progress plumbing is not modelled either.
- The WebSocket server, `ws.send`, `JSON.parse` and `JSON.stringify` are not modelled. What `JSON.parse` returned or threw is a parameter. Responses are kept as values: an echoed `undefined` field stays in the value, where `JSON.stringify` would drop it. A `send` failing on a closing socket is not modelled.
- Interleaving of concurrent handlers is left out. There is no correlation id, so ordering across in-flight commands is unspecified. Each message is handled as one atomic step, from decode to the single response.
- The history lemmas assume what the WebSocket server guarantees: each connection is a new socket, and a socket's events follow its connection. `Step` still defines a connect on a socket that already has handlers, but it does not model the second set of handlers that would attach.
- Console logging, `logStartup`, the server-level `error` handler (it only logs) and the port chosen from `DOCKER_MCP_PORT` (src/index.ts:266) are left out. They only log or read the environment. A non-numeric port gives NaN, not 9999.
- `Js.Value` has integer numbers only. Fractional numbers are not modelled, and integers are exact rather than doubles.
- `Js.NatText`: prints every decimal digit of `n`. For integers of magnitude 2^53 or more, JavaScript's `String` prints the shortest digits that round-trip through a double: 2^60 prints as `1152921504606847000`, not `1152921504606846976`.
- `Js.ToText`: prints integers of magnitude 2^53 or more with every digit, where JavaScript prints the shortest round-trip form. It does not use the exponent form JavaScript prints for magnitudes of 10^21 and above either. So `{"type": 1152921504606846976}` gets `Unknown command: 1152921504606846976`, where the source prints `Unknown command: 1152921504606847000`.
- `Js.ToText` prints an object with an own `toString` key as `[object Object]`, also inside an array. A parsed value is never callable, so JavaScript would skip that key, find no usable conversion and throw `TypeError: Cannot convert object to primitive value`. Any other object prints as `[object Object]` in both.
  - For a message such as `{"type": {"toString": 1}}`, the throw happens in the template literal at src/index.ts:71, outside the `try`. So the source answers `Failed to process command` with that TypeError, where the model answers `Unknown command: [object Object]`.
  - This is why `Router.HandleCommand`, `Router.ProcessFailure` and `Router.UnknownCommand` hold for such a `type` only in the model.
- `Router.HandleCommand`: rejects only for a nullish command. It does not capture the rejection for a `type` whose string conversion throws.
- `Router.ProcessFailure`: its if-and-only-if is about the model. The source also answers `Failed to process command` for a `type` whose string conversion throws, and for a rejection value whose `toString` throws (next line).
- `Router.UnknownCommand`: in the source, an unknown `type` whose string conversion throws is answered `Failed to process command` instead.
- `Js.ErrorText` shows a rejection value that is an object with an own `toString` key as `[object Object]`. A rejection value does not come from `JSON.parse`, so that member may be callable.
  - Callable: JavaScript calls it at src/index.ts:219, and its result becomes the `error` text.
  - Not callable, say `{toString: 1}`: `error.toString()` raises `TypeError: error.toString is not a function` inside the `catch` at lines 205-208, before anything is sent. `handleCommand` rejects with that TypeError. The message handler's `catch` at lines 48-50 then sends `{type: 'error', payload: {message: 'Failed to process command'}, error: 'TypeError: error.toString is not a function'}`.
  - The model sends `Failed to execute <type>` with error `[object Object]` instead. So `Router.FailedCommand`, `Router.KnownCommandCallsItsOperation` and `Router.ProcessFailure` answer differently from the source for such a value.
- `Js.Property` looks up only own fields of parsed objects. It ignores string indices, `length` and inherited members. None of the field names the router reads is one of these.
- `Js.TypeErrorReading` uses the V8 wording for reading a field of `null` or `undefined`. Other engines word it differently.
- scripts/link-cursor.js (file copying), src/types.ts (declarations only), the tests and jest.config.js are not part of this model.

/** The session layer of `DockerMCP`: the `connection`, `message`, `close` and
    `error` handlers over the `clients` set, and what each socket is sent.

    A socket is an identity. What the transport carries back to a client is
    kept as that socket's outbox, the sequence of responses `sendToClient`
    wrote on it. `Step` is the effect of one handler run, taken as one atomic
    step; the class `DockerMCP` performs the same steps in place. */
module Server {
  import opened Wrappers
  import opened Js
  import opened Protocol
  import opened Router

  /** The identity of one WebSocket connection. */
  type SocketId = nat

  /** The server's `clients` set, and the responses sent on every socket
      whose handlers were attached by the `connection` handler (the keys of
      `outbox`). */
  datatype Registry = Registry(clients: set<SocketId>, outbox: map<SocketId, seq<Response>>)

  const Initial: Registry := Registry({}, map[])

  /** What the WebSocket server reports: a new connection, an inbound message
      (with what `JSON.parse` made of it and what the backend call, if one
      is made, settles to), a close, or a transport error. */
  datatype Event =
    | Connected(ws: SocketId)
    | Received(ws: SocketId, decoded: Result<Value, Thrown>, outcome: Outcome)
    | Closed(ws: SocketId)
    | Errored(ws: SocketId)

  function Sent(r: Registry, ws: SocketId): seq<Response> {
    if ws in r.outbox then r.outbox[ws] else []
  }

  /** The effect of one event. A message on a socket without handlers is not
      delivered to the server at all. */
  function Step(r: Registry, e: Event): Registry {
    match e
    case Connected(ws) =>
      Registry(r.clients + {ws}, r.outbox[ws := Sent(r, ws) + [Greeting()]])
    case Received(ws, decoded, outcome) =>
      if ws in r.outbox then
        Registry(r.clients, r.outbox[ws := r.outbox[ws] + [OnMessage(decoded, outcome).response]])
      else r
    case Closed(ws) =>
      Registry(r.clients - {ws}, r.outbox)
    case Errored(ws) =>
      Registry(r.clients - {ws}, r.outbox)
  }

  /** Every live client has handlers, and every socket with handlers was
      greeted first. */
  ghost predicate Greeted(r: Registry) {
    r.clients <= r.outbox.Keys &&
    forall ws :: ws in r.outbox ==> |r.outbox[ws]| > 0 && r.outbox[ws][0] == Greeting()
  }

  lemma StepPreservesGreeted(r: Registry, e: Event)
    requires Greeted(r)
    ensures Greeted(Step(r, e))
  {
  }

  /** An event touches only its own socket: no other socket is sent
      anything, and no other socket enters or leaves `clients`. */
  lemma StepIsLocal(r: Registry, e: Event, other: SocketId)
    requires other != e.ws
    ensures Sent(Step(r, e), other) == Sent(r, other)
    ensures other in Step(r, e).clients <==> other in r.clients
    ensures other in Step(r, e).outbox <==> other in r.outbox
  {
  }

  /** A message on a connected socket is answered by exactly one response on
      that socket, the one `OnMessage` computes; `clients` is neither read
      nor changed, and the socket keeps its handlers (so a message that does
      not parse leaves the session usable). */
  lemma ReceiveAnswersOnce(r: Registry, ws: SocketId, decoded: Result<Value, Thrown>, outcome: Outcome)
    requires ws in r.outbox
    ensures var r' := Step(r, Received(ws, decoded, outcome));
            r'.clients == r.clients && ws in r'.outbox &&
            r'.outbox[ws] == r.outbox[ws] + [OnMessage(decoded, outcome).response]
  {
  }

  /** `close` and `error` remove their own socket from `clients` and nothing
      else, and a second removal, by either, changes nothing. */
  lemma DisconnectIdempotent(r: Registry, first: Event, second: Event)
    requires first.Closed? || first.Errored?
    requires (second.Closed? || second.Errored?) && second.ws == first.ws
    ensures Step(r, first) == Registry(r.clients - {first.ws}, r.outbox)
    ensures Step(Step(r, first), second) == Step(r, first)
  {
  }

  /** The state after a sequence of events, starting with no clients. */
  function Run(events: seq<Event>): Registry
    decreases |events|
  {
    if events == [] then Initial else Step(Run(events[..|events| - 1]), events[|events| - 1])
  }

  /** The sockets that connected during `events`. */
  function Connections(events: seq<Event>): set<SocketId>
    decreases |events|
  {
    if events == [] then {}
    else
      var last := events[|events| - 1];
      Connections(events[..|events| - 1]) + (if last.Connected? then {last.ws} else {})
  }

  /** The sockets that were closed or failed during `events`. */
  function Disconnections(events: seq<Event>): set<SocketId>
    decreases |events|
  {
    if events == [] then {}
    else
      var last := events[|events| - 1];
      Disconnections(events[..|events| - 1]) + (if last.Closed? || last.Errored? then {last.ws} else {})
  }

  /** What the WebSocket server can report: each connection is a new socket,
      and a socket has messages, a close or an error only after it
      connected. */
  predicate Admissible(events: seq<Event>)
    decreases |events|
  {
    events == [] ||
    (var prefix, last := events[..|events| - 1], events[|events| - 1];
     Admissible(prefix) &&
     if last.Connected? then last.ws !in Connections(prefix) else last.ws in Connections(prefix))
  }

  /** The responses to the messages received on `ws`, in the order they
      arrived. */
  function RepliesOn(events: seq<Event>, ws: SocketId): seq<Response>
    decreases |events|
  {
    if events == [] then []
    else
      var last := events[|events| - 1];
      RepliesOn(events[..|events| - 1], ws) +
        (if last.Received? && last.ws == ws then [OnMessage(last.decoded, last.outcome).response] else [])
  }

  /** The number of messages received on `ws`. */
  function MessagesOn(events: seq<Event>, ws: SocketId): nat
    decreases |events|
  {
    if events == [] then 0
    else
      var last := events[|events| - 1];
      MessagesOn(events[..|events| - 1], ws) + (if last.Received? && last.ws == ws then 1 else 0)
  }

  lemma {:induction false} RepliesCount(events: seq<Event>, ws: SocketId)
    ensures |RepliesOn(events, ws)| == MessagesOn(events, ws)
    decreases |events|
  {
    if events != [] {
      RepliesCount(events[..|events| - 1], ws);
    }
  }

  /** Over any history the server can see, a socket has handlers exactly
      when it connected, and `clients` holds the sockets that connected and
      have not been closed or failed. */
  lemma {:induction false} RunRegistry(events: seq<Event>)
    requires Admissible(events)
    ensures Run(events).outbox.Keys == Connections(events)
    ensures Disconnections(events) <= Connections(events)
    ensures Run(events).clients == Connections(events) - Disconnections(events)
    decreases |events|
  {
    if events != [] {
      RunRegistry(events[..|events| - 1]);
    }
  }

  /** Over any history the server can see, what a connected socket was sent
      is the greeting followed by one response per message it sent, in
      order, each computed from that message alone. */
  lemma {:induction false} RunOutbox(events: seq<Event>)
    requires Admissible(events)
    ensures forall ws :: ws in Run(events).outbox ==>
              Run(events).outbox[ws] == [Greeting()] + RepliesOn(events, ws)
    decreases |events|
  {
    if events != [] {
      var prefix, last := events[..|events| - 1], events[|events| - 1];
      RunOutbox(prefix);
      RunRegistry(prefix);
      if last.Connected? {
        NoRepliesBeforeConnect(prefix, last.ws);
      }
    }
  }

  /** The session invariant over any history the server can see: a socket
      has handlers exactly when it connected; what it was sent is the
      greeting followed by exactly one response per message it sent, in
      order, each computed from that message alone (so nothing is ever
      delivered to another session); and `clients` holds the sockets that
      connected and have not been closed or failed. */
  lemma RunSessions(events: seq<Event>)
    requires Admissible(events)
    ensures Run(events).outbox.Keys == Connections(events)
    ensures Run(events).clients == Connections(events) - Disconnections(events)
    ensures forall ws :: ws in Run(events).outbox ==>
              Run(events).outbox[ws] == [Greeting()] + RepliesOn(events, ws)
  {
    RunRegistry(events);
    RunOutbox(events);
  }

  /** A socket that has not connected has sent no message. */
  lemma {:induction false} NoRepliesBeforeConnect(events: seq<Event>, ws: SocketId)
    requires Admissible(events)
    requires ws !in Connections(events)
    ensures RepliesOn(events, ws) == []
    ensures Sent(Run(events), ws) == []
    decreases |events|
  {
    RunRegistry(events);
    if events != [] {
      NoRepliesBeforeConnect(events[..|events| - 1], ws);
    }
  }

  /** Every connected socket received the greeting before anything else, and
      then one response per message. */
  lemma GreetingFirst(events: seq<Event>, ws: SocketId)
    requires Admissible(events)
    requires ws in Connections(events)
    ensures ws in Run(events).outbox
    ensures |Run(events).outbox[ws]| == 1 + MessagesOn(events, ws)
    ensures Run(events).outbox[ws][0] == Greeting()
  {
    RunSessions(events);
    RepliesCount(events, ws);
  }

  /** The `DockerMCP` object: its `clients` set, and what was written on each
      socket it attached handlers to. */
  class DockerMCP {
    var clients: set<SocketId>
    var sent: map<SocketId, seq<Response>>

    function State(): Registry
      reads this
    {
      Registry(clients, sent)
    }

    ghost predicate Valid()
      reads this
    {
      Greeted(State())
    }

    constructor ()
      ensures Valid() && State() == Initial
    {
      clients := {};
      sent := map[];
    }

    /** `sendToClient(ws, response)`: writes one response on `ws`. */
    method SendToClient(ws: SocketId, response: Response)
      requires ws in sent
      modifies this
      ensures clients == old(clients)
      ensures sent == old(sent)[ws := old(sent)[ws] + [response]]
    {
      sent := sent[ws := sent[ws] + [response]];
    }

    /** `sendError(ws, message, error?)` */
    method SendError(ws: SocketId, message: string, err: Option<Thrown>)
      requires ws in sent
      modifies this
      ensures clients == old(clients)
      ensures sent == old(sent)[ws := old(sent)[ws] + [ErrorResponse(message, err)]]
    {
      SendToClient(ws, ErrorResponse(message, err));
    }

    /** The `connection` handler: registers the socket, attaches its
      handlers and greets it. */
    method OnConnection(ws: SocketId)
      requires Valid()
      requires ws !in sent
      modifies this
      ensures Valid()
      ensures clients == old(clients) + {ws}
      ensures sent == old(sent)[ws := [Greeting()]]
      ensures State() == Step(old(State()), Connected(ws))
    {
      clients := clients + {ws};
      sent := sent[ws := []];
      SendToClient(ws, Greeting());
      assert [] + [Greeting()] == [Greeting()];
    }

    /** The `message` handler of `ws`: one response on `ws`, nothing else
      changes. Returns the backend call made, if any. */
    method HandleMessage(ws: SocketId, decoded: Result<Value, Thrown>, outcome: Outcome) returns (invoked: Option<Call>)
      requires Valid()
      requires ws in sent
      modifies this
      ensures Valid()
      ensures clients == old(clients)
      ensures sent == old(sent)[ws := old(sent)[ws] + [OnMessage(decoded, outcome).response]]
      ensures invoked == OnMessage(decoded, outcome).invoked
      ensures State() == Step(old(State()), Received(ws, decoded, outcome))
    {
      match decoded
      case Err(e) =>
        SendError(ws, ProcessFailureMessage, Some(e));
        invoked := None;
      case Ok(command) =>
        match HandleCommand(command, outcome)
        case Err(e) =>
          SendError(ws, ProcessFailureMessage, Some(e));
          invoked := None;
        case Ok(h) =>
          SendToClient(ws, h.response);
          invoked := h.invoked;
    }

    /** The `close` handler of `ws`. */
    method OnClose(ws: SocketId)
      requires Valid()
      modifies this
      ensures Valid()
      ensures clients == old(clients) - {ws} && sent == old(sent)
      ensures State() == Step(old(State()), Closed(ws))
    {
      clients := clients - {ws};
    }

    /** The `error` handler of `ws`. */
    method OnError(ws: SocketId)
      requires Valid()
      modifies this
      ensures Valid()
      ensures clients == old(clients) - {ws} && sent == old(sent)
      ensures State() == Step(old(State()), Errored(ws))
    {
      clients := clients - {ws};
    }
  }
}

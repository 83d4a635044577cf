/**
 * `RxWebSocket` and its `Builder` as objects whose fields change in place.
 * Every method is proved to move the object's state exactly as the matching
 * function of `SessionModel` says, so what is proved there about sessions and
 * runs holds of the objects.
 */
module Sockets {
  import opened Base
  import opened Conversion
  import opened Listener
  import opened SessionModel

  /** The `PublishProcessor<Event>`: the events it emitted, and whether it completed. */
  class EventBus {
    var events: seq<Event>
    var completed: bool

    constructor ()
      ensures events == [] && !completed
    {
      events := [];
      completed := false;
    }

    /** `onNext`: a completed processor drops the event. */
    method OnNext(e: Event)
      modifies this
      ensures events == if old(completed) then old(events) else old(events) + [e]
      ensures completed == old(completed)
    {
      if !completed {
        events := events + [e];
      }
    }

    /** `onComplete`: nothing is emitted afterwards. */
    method OnComplete()
      modifies this
      ensures completed && events == old(events)
    {
      completed := true;
    }
  }

  /** The `ArrayList` of converter factories, one object shared by a builder and every socket it built. */
  class FactoryList {
    var items: seq<Factory>

    constructor ()
      ensures items == []
    {
      items := [];
    }

    method Add(f: Factory)
      modifies this
      ensures items == old(items) + [f]
    {
      items := items + [f];
    }
  }

  class RxWebSocket {
    const client: ClientId
    var request: Option<Request>         // `lateinit`: `None` until `build` assigns it
    var converterFactories: FactoryList
    const publishProcessor: EventBus
    var originalWebSocket: Option<SocketId>
    var userRequestedClose: bool
    var messagePublishers: map<TypeId, PublisherId>
    var publishersCreated: nat
    var subscriptions: seq<TypeId>   // the forwarding subscriptions `compositeDisposables` holds
    var disposed: bool               // `compositeDisposables` has been disposed
    var transport: seq<TransportCall>

    /** The session this object is in. */
    function State(): Session
      reads this, publishProcessor
    {
      Session(originalWebSocket, userRequestedClose, messagePublishers, publishersCreated, subscriptions,
              disposed, publishProcessor.events, publishProcessor.completed, transport)
    }

    /** `RxWebSocket(client)`: no request yet, an empty factory list of its own, a fresh bus. */
    constructor (client: ClientId)
      ensures this.client == client && request.None?
      ensures fresh(converterFactories) && converterFactories.items == []
      ensures fresh(publishProcessor)
      ensures State() == Initial && Valid(State())
    {
      this.client := client;
      request := None;
      converterFactories := new FactoryList();
      publishProcessor := new EventBus();
      originalWebSocket := None;
      userRequestedClose := false;
      messagePublishers := map[];
      publishersCreated := 0;
      subscriptions := [];
      disposed := false;
      transport := [];
    }

    /** `listen()`: the bus itself. */
    method Listen() returns (bus: EventBus)
      ensures bus == publishProcessor
    {
      bus := publishProcessor;
    }

    method SendEventToStream(e: Event)
      modifies publishProcessor
      ensures State() == Publish(old(State()), e)
    {
      publishProcessor.OnNext(e);
    }

    method SetSocket(ws: Option<SocketId>)
      modifies this`originalWebSocket, this`userRequestedClose
      ensures State() == SessionModel.SetSocket(old(State()), ws)
    {
      originalWebSocket := ws;
      userRequestedClose := false;
    }

    /** `compositeDisposables.dispose()`. */
    method DisposeSubscriptions()
      modifies this`subscriptions, this`disposed
      ensures State() == Dispose(old(State()))
    {
      subscriptions := [];
      disposed := true;
    }

    /** `connect()`, that is `doConnect()`. */
    method Connect() returns (outcome: Outcome)
      requires Valid(State())
      modifies this`transport, publishProcessor
      ensures Valid(State())
      ensures State() == After(old(State()), DoConnect(old(State()), request))
      ensures outcome == OutcomeOf(DoConnect(old(State()), request))
    {
      if originalWebSocket.Some? {
        SendEventToStream(Open);
        return Returned;
      }
      if request.None? {
        return Raised(UninitializedProperty("request"));
      }
      transport := transport + [NewWebSocket(request.value)];
      outcome := Returned;
    }

    /** `disconnect(code, reason)`, that is `doDisconnect`. */
    method Disconnect(code: int, reason: string) returns (outcome: Outcome)
      requires Valid(State())
      modifies this`userRequestedClose, this`transport
      ensures Valid(State())
      ensures State() == After(old(State()), DoDisconnect(old(State()), code, reason))
      ensures outcome == OutcomeOf(DoDisconnect(old(State()), code, reason))
    {
      var ws := RequireNotNull(originalWebSocket, OpenSocketExpected);
      if ws.Err? {
        return Raised(ws.error);
      }
      userRequestedClose := true;
      transport := transport + [CloseSocket(ws.value, code, reason)];
      outcome := Returned;
    }

    /** `cancel()`, that is `doCancel`. */
    method Cancel() returns (outcome: Outcome)
      requires Valid(State())
      modifies this`userRequestedClose, this`transport
      ensures Valid(State())
      ensures State() == After(old(State()), DoCancel(old(State())))
      ensures outcome == OutcomeOf(DoCancel(old(State())))
    {
      var ws := RequireNotNull(originalWebSocket, OpenSocketExpected);
      if ws.Err? {
        return Raised(ws.error);
      }
      userRequestedClose := true;
      transport := transport + [CancelSocket(ws.value)];
      outcome := Returned;
    }

    /** `send(ByteArray)`. */
    method SendBytes(bytes: seq<byte>) returns (outcome: Outcome)
      requires Valid(State())
      modifies this`transport
      ensures Valid(State())
      ensures State() == After(old(State()), SendBytesToSocket(old(State()), bytes))
      ensures outcome == OutcomeOf(SendBytesToSocket(old(State()), bytes))
    {
      var ws := RequireNotNull(originalWebSocket, OpenSocketExpected);
      if ws.Err? {
        return Raised(ws.error);
      }
      transport := transport + [SendBinary(ws.value, bytes)];
      outcome := Returned;
    }

    /** `send(T)`: `converters` says what the converters the factories hand out do. */
    method Send(value: AppValue, converters: Converters) returns (outcome: Outcome)
      requires Valid(State())
      modifies this`transport
      ensures Valid(State())
      ensures State() == After(old(State()), SendValueToSocket(old(State()), converterFactories.items, converters, value))
      ensures outcome == OutcomeOf(SendValueToSocket(old(State()), converterFactories.items, converters, value))
    {
      var ws := RequireNotNull(originalWebSocket, OpenSocketExpected);
      if ws.Err? {
        return Raised(ws.error);
      }
      var converter := ResolveConverter(converterFactories.items, RequestSide, ClassToken(ClassOf(value)));
      if converter.Err? {
        return Raised(converter.error);
      }
      var text := EncodedText(converters, converter.value, value);
      if text.Err? {
        return Raised(text.error);
      }
      transport := transport + [SendText(ws.value, text.value)];
      outcome := Returned;
    }

    /** `listenMessages(cls)`: the stream comes back as the publisher it reads from. */
    method ListenMessages(cls: TypeId) returns (stream: Stream)
      requires Valid(State())
      modifies this`publishersCreated, this`messagePublishers, this`subscriptions
      ensures Valid(State())
      ensures State() == SessionModel.ListenMessages(old(State()), cls).next
      ensures stream == SessionModel.ListenMessages(old(State()), cls).stream
    {
      var publisher := publishersCreated;
      publishersCreated := publishersCreated + 1;
      messagePublishers := messagePublishers[cls := publisher];
      if !disposed {
        subscriptions := subscriptions + [cls];
      }
      stream := Stream(cls, publisher);
    }

    /** The `onOpenAction` of `webSocketListener()`. */
    method OnOpenAction(ws: SocketId, response: ResponseId)
      requires Valid(State())
      modifies this`originalWebSocket, this`userRequestedClose, publishProcessor
      ensures Valid(State())
      ensures State() == SessionModel.OnOpenAction(old(State()), ws)
    {
      SetSocket(Some(ws));
      SendEventToStream(Open);
    }

    /** The `onMessageAction` of `webSocketListener()`. */
    method OnMessageAction(ws: SocketId, text: Option<string>, bytes: Option<seq<byte>>)
      requires Valid(State())
      modifies publishProcessor
      ensures Valid(State())
      ensures State() == SessionModel.OnMessageAction(old(State()), text, bytes)
    {
      SendEventToStream(Message(text, bytes));
    }

    /** The `onFailureAction` of `webSocketListener()`. */
    method OnFailureAction(ws: SocketId, t: Cause, response: Option<ResponseId>)
      requires Valid(State())
      modifies this`originalWebSocket, this`userRequestedClose, this`subscriptions, this`disposed, publishProcessor
      ensures Valid(State())
      ensures State() == SessionModel.OnFailureAction(old(State()), t)
    {
      SendEventToStream(Failed(t));
      DisposeSubscriptions();
      SetSocket(None);
    }

    /** The `onClosedAction` of `webSocketListener()`; `listeners` says whether `listen()` has outside subscribers. */
    method OnClosedAction(ws: SocketId, code: int, reason: string, listeners: bool)
      requires Valid(State())
      modifies this`originalWebSocket, this`userRequestedClose, this`subscriptions, this`disposed, publishProcessor
      ensures Valid(State())
      ensures State() == SessionModel.OnClosedAction(old(State()), code, reason, listeners)
    {
      if userRequestedClose {
        if !publishProcessor.completed && (listeners || |subscriptions| > 0) {
          publishProcessor.OnNext(Closed(code, reason));
          publishProcessor.OnComplete();
        }
      } else {
        SendEventToStream(Closed(code, reason));
      }
      DisposeSubscriptions();
      SetSocket(None);
    }

    /** A callback of the `WssListener` this socket hands the client, through the action it forwards to. */
    method OnCallback(cb: Callback, listeners: bool)
      requires Valid(State())
      modifies this`originalWebSocket, this`userRequestedClose, this`subscriptions, this`disposed, publishProcessor
      ensures Valid(State())
      ensures State() == React(old(State()), Forward(cb), listeners)
    {
      match Forward(cb)
      case OpenAction(ws, response) => OnOpenAction(ws, response);
      case MessageAction(ws, text, bytes) => OnMessageAction(ws, text, bytes);
      case FailureAction(ws, t, response) => OnFailureAction(ws, t, response);
      case ClosedAction(ws, code, reason) => OnClosedAction(ws, code, reason, listeners);
    }
  }

  /** `RxWebSocket.Builder`; a `lateinit` property not yet assigned is `None`. */
  class Builder {
    var request: Option<Request>
    const converterFactories: FactoryList
    var client: Option<ClientId>

    constructor ()
      ensures request.None? && client.None?
      ensures fresh(converterFactories) && converterFactories.items == []
    {
      request := None;
      converterFactories := new FactoryList();
      client := None;
    }

    method SetClient(c: ClientId)
      modifies this`client
      ensures client == Some(c)
    {
      client := Some(c);
    }

    /** `request(request)`. */
    method SetRequest(r: Request)
      modifies this`request
      ensures request == Some(r)
    {
      request := Some(r);
    }

    /** `addConverterFactory`: a null factory is ignored. */
    method AddConverterFactory(f: Option<Factory>)
      modifies converterFactories
      ensures converterFactories.items == old(converterFactories.items) + if f.Some? then [f.value] else []
    {
      if f.Some? {
        converterFactories.Add(f.value);
      }
    }

    /**
     * `build()`: the client is read first, then the request; whichever is
     * unassigned first is reported. The socket shares the factory list.
     */
    method Build() returns (r: Result<RxWebSocket>)
      ensures client.None? ==> r == Err(UninitializedProperty("client"))
      ensures client.Some? && request.None? ==> r == Err(UninitializedProperty("request"))
      ensures r.Ok? <==> client.Some? && request.Some?
      ensures r.Ok? ==> fresh(r.value) && fresh(r.value.publishProcessor) && r.value.State() == Initial
      ensures r.Ok? ==> r.value.client == client.value && r.value.request == request
      ensures r.Ok? ==> r.value.converterFactories == converterFactories
    {
      if client.None? {
        return Err(UninitializedProperty("client"));
      }
      var socket := new RxWebSocket(client.value);
      if request.None? {
        return Err(UninitializedProperty("request"));
      }
      socket.request := request;
      socket.converterFactories := converterFactories;
      r := Ok(socket);
    }

    /**
     * `build(url)`: a null or empty address is refused before anything
     * changes; otherwise the builder's request becomes a GET of the address,
     * and only then is the client read.
     */
    method BuildUrl(url: Option<string>) returns (r: Result<RxWebSocket>)
      modifies this`request
      ensures RequestFor(url).Err? ==> r == Err(RequestFor(url).error) && request == old(request)
      ensures RequestFor(url).Ok? ==> request == Some(RequestFor(url).value)
      ensures RequestFor(url).Ok? && client.None? ==> r == Err(UninitializedProperty("client"))
      ensures r.Ok? <==> RequestFor(url).Ok? && client.Some?
      ensures r.Ok? ==> fresh(r.value) && fresh(r.value.publishProcessor) && r.value.State() == Initial
      ensures r.Ok? ==> r.value.client == client.value && r.value.request == Some(Request(url.value))
      ensures r.Ok? ==> r.value.converterFactories == converterFactories
    {
      var checked := RequestFor(url);
      if checked.Err? {
        return Err(checked.error);
      }
      request := Some(checked.value);
      if client.None? {
        return Err(UninitializedProperty("client"));
      }
      var socket := new RxWebSocket(client.value);
      socket.converterFactories := converterFactories;
      socket.request := request;
      r := Ok(socket);
    }
  }

  /**
   * The builder and what it built share one factory list: a factory added
   * after `build` is seen by the socket. An empty address is refused.
   */
  method SharedFactoryListClient(c: ClientId, f: Factory, g: Factory)
  {
    var builder := new Builder();
    builder.SetClient(c);
    builder.AddConverterFactory(Some(f));
    builder.AddConverterFactory(None);
    var built := builder.BuildUrl(Some("wss://example.org/chat"));
    assert built.Ok?;
    var socket := built.value;
    assert |socket.converterFactories.items| == 1;
    builder.AddConverterFactory(Some(g));
    assert |socket.converterFactories.items| == 2;
    var refused := builder.BuildUrl(Some(""));
    assert refused == Err(IllegalState(AddressRequired));
  }

  /**
   * A session driven through its object: a disconnect before opening throws,
   * `connect` asks for a connection, the transport opens it, and a user
   * disconnect answered by the transport's close ends with one `Closed` and a
   * completed bus.
   */
  method SessionClient(socket: RxWebSocket, ws: SocketId, response: ResponseId)
    requires socket.State() == Initial && socket.request.Some?
    modifies socket, socket.publishProcessor
  {
    var outcome := socket.Disconnect(1000, "bye");
    assert outcome == Raised(IllegalState(OpenSocketExpected));
    outcome := socket.Connect();
    assert outcome == Returned;
    assert socket.State().transport == [NewWebSocket(socket.request.value)];
    socket.OnCallback(OnOpen(ws, response), false);
    assert socket.State().socket == Some(ws) && socket.State().log == [Open];
    outcome := socket.Disconnect(1000, "bye");
    assert outcome == Returned;
    socket.OnCallback(OnClosed(ws, 1000, "bye"), true);
    assert socket.State().log == [Open, Closed(1000, "bye")] && socket.State().completed;
    assert socket.State().socket.None?;
  }

  /**
   * A socket made with its public constructor instead of the builder has no
   * request, so `connect` throws, and no factories, so `send` finds no
   * converter once a socket is open.
   */
  method DirectConstructionClient(c: ClientId, ws: SocketId, response: ResponseId, value: AppValue, converters: Converters)
  {
    var socket := new RxWebSocket(c);
    var outcome := socket.Connect();
    assert outcome == Raised(UninitializedProperty("request"));
    socket.OnCallback(OnOpen(ws, response), false);
    outcome := socket.Send(value, converters);
    assert outcome == Raised(NoSuchElement);
  }
}

/**
 * The session of `RxWebSocket` as a value: the live socket handle, the
 * user-requested-close flag, the per-type publishers, the subscriptions held
 * by the composite disposable, the event bus (as the log of events it
 * emitted and whether it completed) and the calls made on the transport.
 * Every public operation and every transport callback is a function from one
 * such value to the next; the class in rx_websocket.dfy is proved to follow
 * them.
 */
module SessionModel {
  import opened Base
  import opened Conversion
  import opened Listener
  import DefaultConverters

  /** Message of the usage error raised without a live socket. */
  const OpenSocketExpected := "Expected an open websocket"

  /** Message of the error raised by `build(url)` for a null or empty address. */
  const AddressRequired := "Websocket address cannot be null or empty"

  // ---------------------------------------------------------------- events

  /** `WssStatus`. */
  datatype WssStatus = OPENED | FAILED | CLOSED

  /** The `Event` classes; `ParsedMessage.error` is always null where the library builds one. */
  datatype Event =
    | Open
    | Message(message: Option<string>, messageBytes: Option<seq<byte>>)
    | ParsedMessage(data: Option<AppValue>, error: Option<Cause>)
    | Failed(t: Cause)
    | Closed(code: int, reason: string)

  /** `Event.status`: only the transport failing or closing leaves the OPENED status. */
  function Status(e: Event): (s: WssStatus)
    ensures s == OPENED <==> e.Open? || e.Message? || e.ParsedMessage?
    ensures s == FAILED <==> e.Failed?
    ensures s == CLOSED <==> e.Closed?
  {
    match e
    case Open => OPENED
    case Message(_, _) => OPENED
    case ParsedMessage(_, _) => OPENED
    case Failed(_) => FAILED
    case Closed(_, _) => CLOSED
  }

  // ------------------------------------------------------------ collaborators

  /** The okhttp `Request` the session connects with. */
  datatype Request = Request(url: string)

  /** A call the session makes on the transport (the client, or the live socket `ws`). */
  datatype TransportCall =
    | NewWebSocket(request: Request)
    | SendText(ws: SocketId, text: Option<string>)
    | SendBinary(ws: SocketId, bytes: seq<byte>)
    | CloseSocket(ws: SocketId, code: int, reason: string)
    | CancelSocket(ws: SocketId)

  /** Identity of a per-type `PublishProcessor<Message>`. */
  type PublisherId = nat

  /** The stream `listenMessages(cls)` returned: the per-type publisher installed by that call. */
  datatype Stream = Stream(cls: TypeId, publisher: PublisherId)

  /** What the session's operations read but never change; an unassigned `lateinit` request is `None`. */
  datatype Env = Env(request: Option<Request>, factories: seq<Factory>, converters: Converters)

  // ------------------------------------------------------------------ state

  datatype Session = Session(
    socket: Option<SocketId>,             // originalWebSocket
    userRequestedClose: bool,
    publishers: map<TypeId, PublisherId>, // messagePublishers
    publishersCreated: nat,               // publishers made so far; the next one gets this id
    subscriptions: seq<TypeId>,           // live forwarding subscriptions, by the class they forward to
    disposed: bool,                       // compositeDisposables has been disposed
    log: seq<Event>,                      // events the bus emitted, in order
    completed: bool,                      // the bus has completed
    transport: seq<TransportCall>)        // calls made on the transport, in order

  /** A session as `Builder.build` leaves it. */
  const Initial := Session(None, false, map[], 0, [], false, [], false, [])

  /** What every reachable session satisfies. */
  predicate Valid(s: Session)
  {
    && (forall c :: c in s.publishers ==> s.publishers[c] < s.publishersCreated)
    && (s.disposed ==> s.subscriptions == [])
    && (s.completed ==> s.disposed)
  }

  /** How a session may evolve: logs only grow, and completion and disposal are final. */
  predicate Grows(s: Session, r: Session)
  {
    && s.log <= r.log
    && s.transport <= r.transport
    && (s.completed ==> r.completed && r.log == s.log)
    && (s.disposed ==> r.disposed)
    && s.publishersCreated <= r.publishersCreated
  }

  /** The state after a call that either returned a new state or threw and changed nothing. */
  function After(s: Session, r: Result<Session>): Session
  {
    if r.Ok? then r.value else s
  }

  // --------------------------------------------------------------- the bus

  /** `publishProcessor.onNext(e)`: a completed processor drops the event. */
  function Publish(s: Session, e: Event): (r: Session)
    ensures r.log == if s.completed then s.log else s.log + [e]
    ensures r == s.(log := r.log)
  {
    if s.completed then s else s.(log := s.log + [e])
  }

  /**
   * `publishProcessor.hasSubscribers()`: the forwarding subscriptions made by
   * `listenMessages` count, and so do outside subscribers of `listen()`, of
   * which `listeners` says whether there are any. A completed processor has none.
   */
  function HasSubscribers(s: Session, listeners: bool): (b: bool)
    ensures s.completed ==> !b
    ensures !s.completed && |s.subscriptions| > 0 ==> b
    ensures !s.completed && listeners ==> b
    ensures !listeners && s.subscriptions == [] ==> !b
  {
    !s.completed && (listeners || |s.subscriptions| > 0)
  }

  /** `compositeDisposables.dispose()`: ends every forwarding subscription, and every later one at once. */
  function Dispose(s: Session): (r: Session)
    ensures r.disposed && r.subscriptions == []
    ensures r == s.(disposed := true, subscriptions := [])
  {
    s.(disposed := true, subscriptions := [])
  }

  /** `setSocket(ws)`: installs (or clears) the handle and resets the close flag. */
  function SetSocket(s: Session, ws: Option<SocketId>): (r: Session)
    ensures r.socket == ws && !r.userRequestedClose
    ensures r == s.(socket := ws, userRequestedClose := false)
  {
    s.(socket := ws, userRequestedClose := false)
  }

  /** `requireNotNull`: the value, or an `IllegalStateException` with the given message. */
  function RequireNotNull<T>(o: Option<T>, message: string): (r: Result<T>)
    ensures r.Ok? <==> o.Some?
    ensures r.Ok? ==> r.value == o.value
    ensures r.Err? ==> r.error == IllegalState(message)
  {
    match o
    case Some(v) => Ok(v)
    case None => Err(IllegalState(message))
  }

  // ------------------------------------------------------- converter lookup

  /** Which method of the factories a lookup calls. */
  datatype Direction = ResponseSide | RequestSide

  /** What each factory answers, in list order. */
  function Answers(factories: seq<Factory>, dir: Direction, token: TypeToken): (a: seq<Answer>)
    ensures |a| == |factories|
    ensures forall i :: 0 <= i < |factories| ==>
      a[i] == if dir == ResponseSide then factories[i].responseBodyConverter(token) else factories[i].requestBodyConverter(token)
  {
    seq(|factories|, i requires 0 <= i < |factories| =>
      if dir == ResponseSide then factories[i].responseBodyConverter(token) else factories[i].requestBodyConverter(token))
  }

  /** No factory threw. */
  predicate NoneThrew(a: seq<Answer>)
  {
    forall j :: 0 <= j < |a| ==> !a[j].Threw?
  }

  /** Some factory answered with a converter. */
  predicate SomeConverter(a: seq<Answer>)
  {
    exists j :: 0 <= j < |a| && a[j].Converter?
  }

  /** Factory `i` is the first to answer with a converter. */
  predicate FirstConverterAt(a: seq<Answer>, i: int)
  {
    0 <= i < |a| && a[i].Converter? && forall j :: 0 <= j < i ==> a[j] == NoConverter
  }

  /** Factory `i` is the first to throw. */
  predicate FirstThrowAt(a: seq<Answer>, i: int)
  {
    0 <= i < |a| && a[i].Threw? && forall j :: 0 <= j < i ==> !a[j].Threw?
  }

  /**
   * Kotlin's eager `mapNotNull`: every answer is taken in order, and the first
   * throw ends the whole call, even after a converter was found.
   */
  function MapNotNull(a: seq<Answer>): (r: Result<seq<ConverterId>>)
    ensures r.Ok? <==> NoneThrew(a)
    ensures r.Err? ==> exists i :: FirstThrowAt(a, i) && a[i].error == r.error
    ensures r.Ok? ==> (|r.value| > 0 <==> SomeConverter(a))
    ensures r.Ok? && |r.value| > 0 ==> exists i :: FirstConverterAt(a, i) && a[i].id == r.value[0]
  {
    if a == [] then Ok([])
    else match a[0]
      case Threw(e) =>
        assert FirstThrowAt(a, 0);
        Err(e)
      case NoConverter =>
        var rest := MapNotNull(a[1..]);
        assert forall j :: 0 < j < |a| ==> a[j] == a[1..][j - 1];
        if rest.Err? then
          var k :| FirstThrowAt(a[1..], k) && a[1..][k].error == rest.error;
          assert FirstThrowAt(a, k + 1);
          rest
        else
          if |rest.value| > 0 then
            var k :| FirstConverterAt(a[1..], k) && a[1..][k].id == rest.value[0];
            assert FirstConverterAt(a, k + 1);
            rest
          else rest
      case Converter(c) =>
        var rest := MapNotNull(a[1..]);
        assert forall j :: 0 < j < |a| ==> a[j] == a[1..][j - 1];
        if rest.Err? then
          var k :| FirstThrowAt(a[1..], k) && a[1..][k].error == rest.error;
          assert FirstThrowAt(a, k + 1);
          rest
        else
          assert FirstConverterAt(a, 0);
          Ok([c] + rest.value)
  }

  /**
   * `responseConverter(type)` / `requestConverter(type)`: every factory is
   * asked in list order; a throw from any of them propagates; if none threw,
   * the first converter wins, and `first()` throws when there is none, so a
   * miss is never returned as null.
   */
  function ResolveConverter(factories: seq<Factory>, dir: Direction, token: TypeToken): (r: Result<ConverterId>)
    ensures var a := Answers(factories, dir, token);
      r.Ok? <==> NoneThrew(a) && SomeConverter(a)
    ensures var a := Answers(factories, dir, token);
      r.Ok? ==> exists i :: FirstConverterAt(a, i) && a[i].id == r.value
    ensures var a := Answers(factories, dir, token);
      r.Err? ==>
        (exists i :: FirstThrowAt(a, i) && a[i].error == r.error)
        || (NoneThrew(a) && !SomeConverter(a) && r.error == NoSuchElement)
  {
    match MapNotNull(Answers(factories, dir, token))
    case Err(e) => Err(e)
    case Ok(ids) => if ids == [] then Err(NoSuchElement) else Ok(ids[0])
  }

  /** The first converter in list order is unique, so it is well defined. */
  lemma FirstConverterUnique(a: seq<Answer>, i: int, j: int)
    requires FirstConverterAt(a, i) && FirstConverterAt(a, j)
    ensures i == j
  {
  }

  // -------------------------------------------------------------- decoding

  /**
   * The `map` of `listenMessages`: every way decoding can fail (a lookup
   * that throws, a converter that throws, a converter that returns null)
   * becomes `ParsedMessage(null)`; otherwise the decoded value.
   */
  function DecodeMessage(factories: seq<Factory>, converters: Converters, cls: TypeId, message: Option<string>): (r: Event)
    ensures r.ParsedMessage? && r.error.None?
    ensures var c := ResolveConverter(factories, ResponseSide, ClassToken(cls));
      r.data.Some? <==> c.Ok? && converters.fromText(c.value, message).Converted?
    ensures var c := ResolveConverter(factories, ResponseSide, ClassToken(cls));
      r.data.Some? ==> converters.fromText(c.value, message) == Converted(r.data.value)
  {
    match ResolveConverter(factories, ResponseSide, ClassToken(cls))
    case Err(_) => ParsedMessage(None, None)
    case Ok(c) =>
      match converters.fromText(c, message)
      case Converted(v) => ParsedMessage(Some(v), None)
      case ConvertedNull => ParsedMessage(None, None)
      case ConvertThrew(_) => ParsedMessage(None, None)
  }

  /** The `Message` events among `events`, in order (`ofType(Message)`). */
  function MessagesOf(events: seq<Event>): (r: seq<Event>)
    ensures forall i :: 0 <= i < |r| ==> r[i].Message?
    ensures |r| <= |events|
    ensures (forall i :: 0 <= i < |events| ==> events[i].Message?) ==> r == events
    ensures |events| == 1 && !events[0].Message? ==> r == []
  {
    if events == [] then []
    else (if events[0].Message? then [events[0]] else []) + MessagesOf(events[1..])
  }

  /** The filter works event by event: with the single-event case above, this fixes it on every log. */
  lemma {:induction false} MessagesOfAppend(a: seq<Event>, b: seq<Event>)
    ensures MessagesOf(a + b) == MessagesOf(a) + MessagesOf(b)
    decreases |a|
  {
    if a != [] {
      assert (a + b)[0] == a[0] && (a + b)[1..] == a[1..] + b;
      MessagesOfAppend(a[1..], b);
      var head := if a[0].Message? then [a[0]] else [];
      assert MessagesOf(a + b) == head + MessagesOf(a[1..] + b);
      assert MessagesOf(a) == head + MessagesOf(a[1..]);
    } else {
      assert a + b == b;
    }
  }

  /**
   * What a `listenMessages(cls)` stream emits for the events its publisher
   * receives: one `ParsedMessage` per `Message`, in order. A message that
   * cannot be decoded yields `ParsedMessage(null)` and the stream goes on.
   */
  function ParsedStream(factories: seq<Factory>, converters: Converters, cls: TypeId, events: seq<Event>): (r: seq<Event>)
    ensures |r| == |MessagesOf(events)|
    ensures forall i :: 0 <= i < |r| ==>
      r[i] == DecodeMessage(factories, converters, cls, MessagesOf(events)[i].message)
  {
    if events == [] then []
    else
      var rest := ParsedStream(factories, converters, cls, events[1..]);
      assert MessagesOf(events) == (if events[0].Message? then [events[0]] else []) + MessagesOf(events[1..]);
      if events[0].Message? then [DecodeMessage(factories, converters, cls, events[0].message)] + rest else rest
  }

  /** A run of messages none of which decodes yields exactly as many `ParsedMessage(null)`. */
  lemma UndecodableMessagesYieldNulls(factories: seq<Factory>, converters: Converters, cls: TypeId, events: seq<Event>)
    requires forall i :: 0 <= i < |events| ==> events[i].Message?
    requires forall i :: 0 <= i < |events| ==>
      DecodeMessage(factories, converters, cls, events[i].message).data.None?
    ensures ParsedStream(factories, converters, cls, events) == seq(|events|, _ => ParsedMessage(None, None))
  {
  }

  // ---------------------------------------------------------------- the builder

  /** The check of `Builder.build(url)`, then the GET request for the address. */
  function RequestFor(url: Option<string>): (r: Result<Request>)
    ensures r.Err? <==> url.None? || |url.value| == 0
    ensures r.Err? ==> r.error == IllegalState(AddressRequired)
    ensures r.Ok? ==> r.value == Request(url.value)
  {
    if url.None? || |url.value| == 0 then Err(IllegalState(AddressRequired)) else Ok(Request(url.value))
  }

  // ---------------------------------------------------------------- sending

  /** `converter.convert(message) ?: message as? String`. */
  function EncodedText(converters: Converters, c: ConverterId, value: AppValue): (r: Result<Option<string>>)
    ensures r.Err? <==> converters.toText(c, value).ConvertThrew?
    ensures converters.toText(c, value).ConvertThrew? ==> r == Err(converters.toText(c, value).error)
    ensures converters.toText(c, value).Converted? ==> r == Ok(Some(converters.toText(c, value).value))
    ensures converters.toText(c, value).ConvertedNull? ==>
      r == Ok(if value.StringValue? then Some(value.text) else None)
  {
    match converters.toText(c, value)
    case Converted(text) => Ok(Some(text))
    case ConvertedNull => Ok(if value.StringValue? then Some(value.text) else None)
    case ConvertThrew(e) => Err(e)
  }

  // -------------------------------------------------------------- operations

  /**
   * `doConnect`: with a live socket, announce `Open` again; without one, ask
   * the client for a connection, which reads the `lateinit` request.
   */
  function DoConnect(s: Session, request: Option<Request>): (r: Result<Session>)
    ensures r.Err? <==> s.socket.None? && request.None?
    ensures r.Err? ==> r.error == UninitializedProperty("request")
    ensures s.socket.Some? ==> r == Ok(Publish(s, Open)) && r.value.transport == s.transport
    ensures s.socket.Some? && !s.completed ==> r.value.log == s.log + [Open]
    ensures s.socket.None? && request.Some? ==>
      r.Ok? && r.value.transport == s.transport + [NewWebSocket(request.value)] && r.value == s.(transport := r.value.transport)
  {
    if s.socket.Some? then Ok(Publish(s, Open))
    else if request.None? then Err(UninitializedProperty("request"))
    else Ok(s.(transport := s.transport + [NewWebSocket(request.value)]))
  }

  /** `doDisconnect`: the socket check first, then the flag, then a graceful close on the live socket. */
  function DoDisconnect(s: Session, code: int, reason: string): (r: Result<Session>)
    ensures r.Err? <==> s.socket.None?
    ensures r.Err? ==> r.error == IllegalState(OpenSocketExpected)
    ensures r.Ok? ==> r.value.userRequestedClose
    ensures r.Ok? ==> r.value == s.(userRequestedClose := true, transport := s.transport + [CloseSocket(s.socket.value, code, reason)])
  {
    match RequireNotNull(s.socket, OpenSocketExpected)
    case Err(e) => Err(e)
    case Ok(ws) => Ok(s.(userRequestedClose := true, transport := s.transport + [CloseSocket(ws, code, reason)]))
  }

  /** `doCancel`: as `doDisconnect`, with an abrupt cancel instead of a close. */
  function DoCancel(s: Session): (r: Result<Session>)
    ensures r.Err? <==> s.socket.None?
    ensures r.Err? ==> r.error == IllegalState(OpenSocketExpected)
    ensures r.Ok? ==> r.value.userRequestedClose
    ensures r.Ok? ==> r.value == s.(userRequestedClose := true, transport := s.transport + [CancelSocket(s.socket.value)])
  {
    match RequireNotNull(s.socket, OpenSocketExpected)
    case Err(e) => Err(e)
    case Ok(ws) => Ok(s.(userRequestedClose := true, transport := s.transport + [CancelSocket(ws)]))
  }

  /** `sendMessageToSocket(ByteArray)`: the bytes go to the live socket as they are. */
  function SendBytesToSocket(s: Session, bytes: seq<byte>): (r: Result<Session>)
    ensures r.Err? <==> s.socket.None?
    ensures r.Err? ==> r.error == IllegalState(OpenSocketExpected)
    ensures r.Ok? ==> r.value == s.(transport := s.transport + [SendBinary(s.socket.value, bytes)])
  {
    match RequireNotNull(s.socket, OpenSocketExpected)
    case Err(e) => Err(e)
    case Ok(ws) => Ok(s.(transport := s.transport + [SendBinary(ws, bytes)]))
  }

  /**
   * `sendMessageToSocket(T)`: without a live socket, a usage error. Otherwise
   * the request converter for the value's class is looked up (a failed lookup
   * propagates), the value is converted (a throwing converter propagates), and
   * the text is sent; a null conversion falls back to the value itself when it
   * is a `String`, and to null otherwise.
   */
  function SendValueToSocket(s: Session, factories: seq<Factory>, converters: Converters, value: AppValue): (r: Result<Session>)
    ensures s.socket.None? ==> r == Err(IllegalState(OpenSocketExpected))
    ensures var c := ResolveConverter(factories, RequestSide, ClassToken(ClassOf(value)));
      r.Ok? <==> s.socket.Some? && c.Ok? && !converters.toText(c.value, value).ConvertThrew?
    ensures var c := ResolveConverter(factories, RequestSide, ClassToken(ClassOf(value)));
      s.socket.Some? && c.Err? ==> r == Err(c.error)
    ensures var c := ResolveConverter(factories, RequestSide, ClassToken(ClassOf(value)));
      s.socket.Some? && c.Ok? && converters.toText(c.value, value).ConvertThrew? ==>
      r == Err(converters.toText(c.value, value).error)
    ensures var c := ResolveConverter(factories, RequestSide, ClassToken(ClassOf(value)));
      r.Ok? ==> r.value == s.(transport := s.transport + [SendText(s.socket.value, EncodedText(converters, c.value, value).value)])
  {
    match RequireNotNull(s.socket, OpenSocketExpected)
    case Err(e) => Err(e)
    case Ok(ws) =>
      match ResolveConverter(factories, RequestSide, ClassToken(ClassOf(value)))
      case Err(e) => Err(e)
      case Ok(c) =>
        match EncodedText(converters, c, value)
        case Err(e) => Err(e)
        case Ok(text) => Ok(s.(transport := s.transport + [SendText(ws, text)]))
  }

  /**
   * How many times a stream receives each `Message` the bus emits: once per
   * live forwarding subscription for its class, and only while its publisher
   * is the one installed for the class.
   */
  function Copies(s: Session, st: Stream): (n: nat)
    ensures n > 0 ==> st.cls in s.publishers && s.publishers[st.cls] == st.publisher && st.cls in s.subscriptions
    ensures st.cls in s.publishers && s.publishers[st.cls] == st.publisher && st.cls in s.subscriptions ==> n > 0
  {
    if st.cls in s.publishers && s.publishers[st.cls] == st.publisher then multiset(s.subscriptions)[st.cls] else 0
  }

  /** The state `listenMessages` leaves and the stream it returns. */
  datatype Listening = Listening(next: Session, stream: Stream)

  /**
   * `listenMessages(cls)`: installs a new publisher for `cls` only, and adds a
   * forwarding subscription unless the disposable was disposed (then it is
   * disposed at once). The new stream receives each message once per
   * forwarding subscription for `cls`, old ones included; streams returned
   * earlier for `cls` receive nothing more.
   */
  function ListenMessages(s: Session, cls: TypeId): (r: Listening)
    ensures r.stream == Stream(cls, s.publishersCreated)
    ensures r.next.publishers == s.publishers[cls := s.publishersCreated]
    ensures r.next.subscriptions == if s.disposed then s.subscriptions else s.subscriptions + [cls]
    ensures r.next == s.(publishers := r.next.publishers, publishersCreated := s.publishersCreated + 1,
                         subscriptions := r.next.subscriptions)
    ensures Valid(s) ==> Copies(r.next, r.stream) == if s.disposed then 0 else multiset(s.subscriptions)[cls] + 1
    ensures Valid(s) ==> forall st: Stream :: st.cls == cls && st != r.stream ==> Copies(r.next, st) == 0
    ensures forall st: Stream :: st.cls != cls ==> Copies(r.next, st) == Copies(s, st)
  {
    var publisher := s.publishersCreated;
    var subscriptions := if s.disposed then s.subscriptions else s.subscriptions + [cls];
    assert multiset(s.subscriptions + [cls]) == multiset(s.subscriptions) + multiset{cls};
    Listening(s.(publishers := s.publishers[cls := publisher], publishersCreated := publisher + 1,
                 subscriptions := subscriptions),
              Stream(cls, publisher))
  }

  // --------------------------------------------------------- transport callbacks

  /** `onOpenAction`: install the socket, reset the close flag, then announce `Open`. */
  function OnOpenAction(s: Session, ws: SocketId): (r: Session)
    ensures r.socket == Some(ws) && !r.userRequestedClose
    ensures r.log == if s.completed then s.log else s.log + [Open]
    ensures r == s.(socket := Some(ws), userRequestedClose := false, log := r.log)
  {
    Publish(SetSocket(s, Some(ws)), Open)
  }

  /** `onMessageAction`: publish the frame as a `Message`. */
  function OnMessageAction(s: Session, text: Option<string>, bytes: Option<seq<byte>>): (r: Session)
    ensures r == Publish(s, Message(text, bytes))
  {
    Publish(s, Message(text, bytes))
  }

  /** `onFailureAction`: publish `Failed(t)`, end the forwarding subscriptions, clear the socket. */
  function OnFailureAction(s: Session, t: Cause): (r: Session)
    ensures r.log == if s.completed then s.log else s.log + [Failed(t)]
    ensures r.socket.None? && !r.userRequestedClose && r.disposed && r.subscriptions == []
    ensures r == s.(log := r.log, socket := None, userRequestedClose := false, disposed := true, subscriptions := [])
  {
    SetSocket(Dispose(Publish(s, Failed(t))), None)
  }

  /**
   * `onClosedAction`: a close the peer began is published; a close the user
   * asked for is published and followed by completion, but only when the bus
   * has subscribers, and otherwise not published at all. In every case the
   * forwarding subscriptions end and the socket is cleared.
   */
  function OnClosedAction(s: Session, code: int, reason: string, listeners: bool): (r: Session)
    ensures r.socket.None? && !r.userRequestedClose && r.disposed && r.subscriptions == []
    ensures !s.userRequestedClose ==> r.log == Publish(s, Closed(code, reason)).log && r.completed == s.completed
    ensures s.userRequestedClose && HasSubscribers(s, listeners) ==> r.log == s.log + [Closed(code, reason)] && r.completed
    ensures s.userRequestedClose && !HasSubscribers(s, listeners) ==> r.log == s.log && r.completed == s.completed
    ensures r == s.(log := r.log, completed := r.completed, socket := None, userRequestedClose := false,
                    disposed := true, subscriptions := [])
  {
    var published :=
      if s.userRequestedClose then
        if HasSubscribers(s, listeners) then Publish(s, Closed(code, reason)).(completed := true) else s
      else Publish(s, Closed(code, reason));
    SetSocket(Dispose(published), None)
  }

  /** The event an action call announces on the bus, if it announces one. */
  function Announced(a: Action): Event
  {
    match a
    case OpenAction(_, _) => Open
    case MessageAction(_, text, bytes) => Message(text, bytes)
    case FailureAction(_, t, _) => Failed(t)
    case ClosedAction(_, code, reason) => Closed(code, reason)
  }

  /**
   * `webSocketListener()`: what each action call of the `WssListener` does to
   * the session. A callback never calls the transport and publishes at most
   * the one event it announces; opening installs the socket, and failing or
   * closing clears it and ends the forwarding subscriptions.
   */
  function React(s: Session, a: Action, listeners: bool): (r: Session)
    ensures r.transport == s.transport
    ensures r.log == s.log || r.log == s.log + [Announced(a)]
    ensures !s.completed && !a.ClosedAction? ==> r.log == s.log + [Announced(a)]
    ensures a.OpenAction? ==> r.socket == Some(a.ws) && !r.userRequestedClose
    ensures a.MessageAction? ==> r.socket == s.socket && r.subscriptions == s.subscriptions
    ensures a.FailureAction? || a.ClosedAction? ==> r.socket.None? && r.disposed && r.subscriptions == []
  {
    match a
    case OpenAction(ws, _) => OnOpenAction(s, ws)
    case MessageAction(_, text, bytes) => OnMessageAction(s, text, bytes)
    case FailureAction(_, t, _) => OnFailureAction(s, t)
    case ClosedAction(_, code, reason) => OnClosedAction(s, code, reason, listeners)
  }

  // ------------------------------------------------------------------ traces

  /** Everything that can happen to a session: a public call, or a transport callback. */
  datatype Input =
    | CallConnect
    | CallDisconnect(code: int, reason: string)
    | CallCancel
    | CallSendBytes(bytes: seq<byte>)
    | CallSend(value: AppValue)
    | CallListenMessages(cls: TypeId)
    | Transport(callback: Callback, listeners: bool)

  /**
   * One input. Only the four calls that need a socket can throw, and
   * `connect` when it needs the request and none was assigned; a call that
   * throws changes nothing. Without a live socket nothing is sent, closed or
   * cancelled.
   */
  function Step(env: Env, s: Session, input: Input): (r: Result<Session>)
    ensures r.Err? ==>
      input.CallDisconnect? || input.CallCancel? || input.CallSendBytes? || input.CallSend?
      || (input.CallConnect? && env.request.None?)
    ensures (input.CallDisconnect? || input.CallCancel? || input.CallSendBytes?) ==> (r.Err? <==> s.socket.None?)
    ensures s.socket.None? && !input.Transport? ==>
      After(s, r).transport == s.transport
      || (env.request.Some? && After(s, r).transport == s.transport + [NewWebSocket(env.request.value)])
  {
    match input
    case CallConnect => DoConnect(s, env.request)
    case CallDisconnect(code, reason) => DoDisconnect(s, code, reason)
    case CallCancel => DoCancel(s)
    case CallSendBytes(bytes) => SendBytesToSocket(s, bytes)
    case CallSend(value) => SendValueToSocket(s, env.factories, env.converters, value)
    case CallListenMessages(cls) => Ok(ListenMessages(s, cls).next)
    case Transport(cb, listeners) => Ok(React(s, Forward(cb), listeners))
  }

  /** Every input keeps the session invariant and only lets the session grow. */
  lemma StepGrows(env: Env, s: Session, input: Input)
    requires Valid(s)
    ensures Grows(s, After(s, Step(env, s, input)))
    ensures Valid(After(s, Step(env, s, input)))
  {
    match input
    case CallListenMessages(cls) =>
      ListenGrows(s, cls);
    case CallSend(value) =>
      SendGrows(s, env.factories, env.converters, value);
    case Transport(cb, listeners) =>
      ReactGrows(s, Forward(cb), listeners);
    case _ =>
  }

  /** Sending a value keeps the session invariant and only lets the session grow. */
  lemma SendGrows(s: Session, factories: seq<Factory>, converters: Converters, value: AppValue)
    requires Valid(s)
    ensures Grows(s, After(s, SendValueToSocket(s, factories, converters, value)))
    ensures Valid(After(s, SendValueToSocket(s, factories, converters, value)))
  {
  }

  /** `listenMessages` keeps the session invariant and only lets the session grow. */
  lemma ListenGrows(s: Session, cls: TypeId)
    requires Valid(s)
    ensures Grows(s, ListenMessages(s, cls).next) && Valid(ListenMessages(s, cls).next)
  {
    var r := ListenMessages(s, cls).next;
    assert forall c :: c in r.publishers ==> r.publishers[c] < r.publishersCreated;
  }

  /** Every transport callback keeps the session invariant and only lets the session grow. */
  lemma ReactGrows(s: Session, a: Action, listeners: bool)
    requires Valid(s)
    ensures Grows(s, React(s, a, listeners)) && Valid(React(s, a, listeners))
  {
  }

  /** Two inputs in a row. */
  lemma RunTwo(env: Env, s: Session, first: Input, second: Input)
    ensures Run(env, s, [first, second]) == After(After(s, Step(env, s, first)), Step(env, After(s, Step(env, s, first)), second))
  {
    var s1 := After(s, Step(env, s, first));
    var s2 := After(s1, Step(env, s1, second));
    assert [first, second][1..] == [second];
    assert [second][1..] == [];
    assert Run(env, s1, [second]) == Run(env, s2, []);
  }

  /** A sequence of inputs; an input that throws leaves the session as it was. */
  function Run(env: Env, s: Session, inputs: seq<Input>): Session
    decreases |inputs|
  {
    if inputs == [] then s else Run(env, After(s, Step(env, s, inputs[0])), inputs[1..])
  }

  /**
   * Over any run: the event log and the transport calls only grow, a
   * completed bus never emits again, disposal is final, and the session
   * invariant holds throughout.
   */
  lemma {:induction false} RunGrows(env: Env, s: Session, inputs: seq<Input>)
    requires Valid(s)
    ensures Grows(s, Run(env, s, inputs))
    ensures Valid(Run(env, s, inputs))
    decreases |inputs|
  {
    if inputs != [] {
      var next := After(s, Step(env, s, inputs[0]));
      StepGrows(env, s, inputs[0]);
      RunGrows(env, next, inputs[1..]);
      var last := Run(env, next, inputs[1..]);
      assert s.log <= next.log <= last.log;
      assert s.transport <= next.transport <= last.transport;
    }
  }

  /** After the bus completed, nothing is ever published again, whatever happens. */
  lemma CompletionIsFinal(env: Env, s: Session, inputs: seq<Input>)
    requires Valid(s) && s.completed
    ensures Run(env, s, inputs).log == s.log && Run(env, s, inputs).completed
  {
    RunGrows(env, s, inputs);
  }

  // --------------------------------------------------------------- scenarios

  /** `connect()` twice with a live socket: no new connection, `Open` announced twice. */
  lemma ConnectWhileLive(env: Env, s: Session)
    requires s.socket.Some? && !s.completed
    ensures Run(env, s, [CallConnect, CallConnect]).transport == s.transport
    ensures Run(env, s, [CallConnect, CallConnect]).log == s.log + [Open, Open]
  {
    RunTwo(env, s, CallConnect, CallConnect);
  }

  /** `connect()` twice before the transport opened: two connections are requested. */
  lemma ConnectTwiceBeforeOpen(env: Env, s: Session)
    requires s.socket.None? && env.request.Some?
    ensures Run(env, s, [CallConnect, CallConnect]).transport
      == s.transport + [NewWebSocket(env.request.value), NewWebSocket(env.request.value)]
  {
    RunTwo(env, s, CallConnect, CallConnect);
  }

  /** `disconnect(1000, "bye")` answered by `onClosed(1000, "bye")`: one `Closed`, then completion. */
  lemma UserDisconnectCompletes(env: Env, s: Session, ws: SocketId)
    requires s.socket.Some? && !s.completed
    ensures var r := Run(env, s, [CallDisconnect(1000, "bye"), Transport(OnClosed(ws, 1000, "bye"), true)]);
      r.log == s.log + [Closed(1000, "bye")] && r.completed && r.socket.None?
  {
    RunTwo(env, s, CallDisconnect(1000, "bye"), Transport(OnClosed(ws, 1000, "bye"), true));
  }

  /** A peer-initiated close is published and the bus stays open, so a new `connect()` can follow. */
  lemma PeerCloseKeepsBusOpen(env: Env, s: Session, ws: SocketId, code: int, reason: string)
    requires !s.userRequestedClose && !s.completed && env.request.Some?
    ensures var r := Run(env, s, [Transport(OnClosed(ws, code, reason), false), CallConnect]);
      r.log == s.log + [Closed(code, reason)] && !r.completed && r.transport == s.transport + [NewWebSocket(env.request.value)]
  {
    RunTwo(env, s, Transport(OnClosed(ws, code, reason), false), CallConnect);
  }

  /** A user-requested close with nobody subscribed publishes nothing and does not complete the bus. */
  lemma UserCloseUnobserved(env: Env, s: Session, ws: SocketId, code: int, reason: string)
    requires s.socket.Some? && s.subscriptions == [] && !s.completed
    ensures var r := Run(env, s, [CallCancel, Transport(OnClosed(ws, code, reason), false)]);
      r.log == s.log && !r.completed && r.socket.None?
  {
    RunTwo(env, s, CallCancel, Transport(OnClosed(ws, code, reason), false));
  }

  /** A transport failure: one `Failed`, the socket cleared, and the next `connect()` requests a new connection. */
  lemma FailureThenReconnect(env: Env, s: Session, ws: SocketId, t: Cause)
    requires !s.completed && env.request.Some?
    ensures var r := Run(env, s, [Transport(OnFailure(ws, t, None), false), CallConnect]);
      r.log == s.log + [Failed(t)] && r.socket.None? && r.transport == s.transport + [NewWebSocket(env.request.value)]
  {
    RunTwo(env, s, Transport(OnFailure(ws, t, None), false), CallConnect);
  }

  /** After a failure or a close, a stream from a later `listenMessages` receives nothing, even after reconnecting. */
  lemma ListenAfterDisposeIsSilent(s: Session, cls: TypeId)
    requires Valid(s) && s.disposed
    ensures Copies(ListenMessages(s, cls).next, ListenMessages(s, cls).stream) == 0
  {
  }

  // ----------------------------------------------- the default factory inside a session

  /**
   * A `DefaultWssConverterFactory` with nothing for a class throws on lookup,
   * and since every factory is asked, that throw ends the whole resolution,
   * whatever the other factories answer: decoding that class always yields
   * `ParsedMessage(null)` and sending a value of it always throws.
   */
  lemma {:induction false} DefaultMissPoisonsResolution(
    s: Session, factories: seq<Factory>, converters: Converters, i: nat,
    response: DefaultConverters.MemoTable, request: DefaultConverters.MemoTable, value: AppValue)
    requires i < |factories| && factories[i] == DefaultConverters.AsFactory(response, request)
    requires ClassOf(value) !in response.initialized && ClassOf(value) !in response.creators
    requires ClassOf(value) !in request.initialized && ClassOf(value) !in request.creators
    requires s.socket.Some?
    ensures ResolveConverter(factories, ResponseSide, ClassToken(ClassOf(value))).Err?
    ensures ResolveConverter(factories, RequestSide, ClassToken(ClassOf(value))).Err?
    ensures forall message :: DecodeMessage(factories, converters, ClassOf(value), message) == ParsedMessage(None, None)
    ensures SendValueToSocket(s, factories, converters, value).Err?
  {
    var token := ClassToken(ClassOf(value));
    assert Answers(factories, ResponseSide, token)[i] == Threw(NullPointer);
    assert Answers(factories, RequestSide, token)[i] == Threw(NullPointer);
  }
}

# wsskotlin, modelled in Dafny

wsskotlin wraps an okhttp WebSocket in RxJava streams. This project models the
library's core.

- **`RxWebSocket`:**
  - its session state machine, meaning the live socket, the user-requested-close flag, the event bus and the per-type message publishers;
  - converter lookup over the registered factories;
  - the decoding step of `listenMessages`;
  - the `Builder`;
  - the `Event` classes.
- **`DefaultWssConverterFactory`:** a factory that builds converters from creators registered per class and memoizes them.
- **`WssListener`:** forwards the transport's five callbacks to four actions.

The project is organised in layers:

| file | module | contents |
|---|---|---|
| `base.dfy` | `Base` | nullable values as `Option`, thrown exceptions as `Result`, and opaque identities for the objects the library only passes along |
| `conversion.dfy` | `Conversion` | the `WebSocketConverter` boundary. A factory is a pair of answer functions (a converter, null, or a throw); what a converter does is a function passed in. |
| `wss_listener.dfy` | `Listener` | the listener as a map from callbacks to action calls, with its inverse |
| `default_factory.dfy` | `DefaultConverters` | the memo table of one direction as a value, the lookup as a function on it, runs of lookups, and the class `DefaultWssConverterFactory`, whose methods update its four maps in place and are proved to follow those functions |
| `session_model.dfy` | `SessionModel` | the session as a value, with one function per operation and per callback, and lemmas over single steps, runs of steps and concrete scenarios |
| `rx_websocket.dfy` | `Sockets` | the objects: the event bus, the factory list that `Builder` shares with every socket it builds, `RxWebSocket` and `Builder`. Each method is proved to change the object exactly as the matching `SessionModel` function says. |

Behaviour of the code that the model makes explicit:

- **Converter lookup asks every factory.** Kotlin's `mapNotNull` is eager, and a throw from any factory aborts the whole lookup, even after an earlier factory produced a converter. When no factory answers, `first()` throws `NoSuchElementException`. The unchecked `as?` cast cannot fail on erased generics, so the private `responseConverter`/`requestConverter` never return null.
- **A default-factory miss poisons both directions.** On a miss, `DefaultWssConverterFactory` throws, because of `!!`. Such a factory in the list therefore makes every lookup for that class fail, whatever the other factories offer (`SessionModel.DefaultMissPoisonsResolution`).
- **The default factory is keyed by raw class.** The converter built for `List<A>` also serves `List<B>`. Registering a new creator does not replace a converter that was already built. Over any run of lookups, each class gets at most one converter built. A creator that throws builds nothing, so the next lookup calls it again.
- **`send(T)` falls back only on a null conversion.** The `?:` in `send(T)` applies only when the converter returns null. The value itself is then sent if it is a `String`, and null otherwise. okhttp does not accept a null text (see "## Left out").
- **A creator that throws is not cached.** The throw passes through `get*Converter` and the body-converter call, and nothing is cached. A later lookup calls the creator again, and inside a session the throw ends the resolution.
- **A directly constructed socket has no request and no factories.** Only the builder assigns them, so on a socket made with `RxWebSocket(client)`, `connect` throws when there is no live socket, and every lookup throws.
- **A repeated `listenMessages(cls)` duplicates and orphans.** Each call installs a new publisher for `cls` and adds one more forwarding subscription. Each subscription forwards to the publisher that is current for `cls`, so:
  - the newest stream receives each message once per call made so far;
  - streams returned earlier for `cls` receive nothing more.
- **Disposal is final.** After a failure or a close, the composite disposable stays disposed, so streams obtained later never receive anything.
- **`hasSubscribers()` counts the library's own subscriptions.** The forwarding subscriptions made by `listenMessages` count as subscribers. A user-requested close is therefore published and completed only when such a subscription or an outside subscriber of `listen()` exists; otherwise nothing is published.

## Model

| member | source | states |
|---|---|---|
| Base.ClassOf | wsskotlin/src/main/kotlin/ru/r3tam/wsskotlin/RxWebSocket.kt:152 | the class is `String`'s exactly for a `String` value. No other value has that class, since `String` is final. An object value's class is its own runtime class. It is the class the request converter is looked up for. |
| Listener.Forward | wsskotlin/src/main/kotlin/ru/r3tam/wsskotlin/WssListener.kt:14-37 | each callback makes one action call on the same socket:<br>• text becomes a message with text and no bytes;<br>• bytes become a message with bytes and no text;<br>• open, failure and close pass their own arguments;<br>• `Origin` recovers the callback. |
| Listener.Origin | wsskotlin/src/main/kotlin/ru/r3tam/wsskotlin/WssListener.kt:8-13 | an action call has an originating callback exactly when it is not a message carrying both or neither payload |
| Listener.OriginForwards | wsskotlin/src/main/kotlin/ru/r3tam/wsskotlin/WssListener.kt:14-37 | forwarding the traced callback gives back the action call |
| Listener.ForwardInjective | wsskotlin/src/main/kotlin/ru/r3tam/wsskotlin/WssListener.kt:14-37 | distinct callbacks make distinct action calls |
| DefaultConverters.TryCreate | wsskotlin/src/main/kotlin/ru/r3tam/wsskotlin/DefaultWssConverterFactory.kt:58-68 | null exactly when no creator is registered for the raw class. Otherwise it gives the creator applied to the full token, or that creator's throw. |
| DefaultConverters.Memo | wsskotlin/src/main/kotlin/ru/r3tam/wsskotlin/DefaultWssConverterFactory.kt:34-56 | a cached class answers from the cache and changes nothing. A creator's converter is answered and cached. The outcome:<br>• a converter is returned exactly when the class is cached, or its creator does not throw;<br>• creators are unchanged;<br>• the cache only grows, and only by the looked-up class when a converter was built;<br>• null or a throw changes nothing. |
| DefaultConverters.Put | wsskotlin/src/main/kotlin/ru/r3tam/wsskotlin/DefaultWssConverterFactory.kt:26-32 | only the creator of the given class is replaced. Built converters stay, and every class already built keeps answering with its cached converter. |
| DefaultConverters.BodyConverter | wsskotlin/src/main/kotlin/ru/r3tam/wsskotlin/DefaultWssConverterFactory.kt:18-24 | it gives the lookup's converter exactly when the class is cached, or a creator builds one. With neither a converter nor a creator, `!!` raises on null. A creator's throw passes through. |
| DefaultConverters.AsFactory | wsskotlin/src/main/kotlin/ru/r3tam/wsskotlin/DefaultWssConverterFactory.kt:18-24 | as seen through the factory interface, the default factory never answers null. It answers a converter exactly when one is cached or built, and that converter is the one the memoized lookup returns. When nothing is cached and a creator exists, the error it throws is the creator's own. With neither a cached converter nor a creator, it throws a null-pointer exception. |
| DefaultConverters.LookupAll | wsskotlin/src/main/kotlin/ru/r3tam/wsskotlin/DefaultWssConverterFactory.kt:34-56 | over a run of lookups:<br>• creators are unchanged and the cache only grows;<br>• each converter returned is the one cached for its class at the end;<br>• two lookups of the same raw class that return a converter return the same one. |
| DefaultConverters.LookupAllAnswers | wsskotlin/src/main/kotlin/ru/r3tam/wsskotlin/DefaultWssConverterFactory.kt:34-56 | each lookup in a run, judged against the starting table:<br>• a class cached at the start answers with that converter;<br>• a class with neither a converter nor a creator answers null;<br>• a throw is the class's own creator throwing for that token;<br>• a creator that does not throw for the token means a converter is returned. |
| DefaultConverters.LookupAllCreatesOnce | wsskotlin/src/main/kotlin/ru/r3tam/wsskotlin/DefaultWssConverterFactory.kt:34-68 | over a run of lookups, at most one converter is built per class. Each is built only for a class not cached at the start, and that class ends up cached. |
| DefaultConverters.LookupAllBuildsWhatItServes | wsskotlin/src/main/kotlin/ru/r3tam/wsskotlin/DefaultWssConverterFactory.kt:34-44 | a lookup that returns a converter for a class not cached at the start was served by a converter the run built for that class |
| DefaultConverters.DefaultWssConverterFactory.constructor | wsskotlin/src/main/kotlin/ru/r3tam/wsskotlin/DefaultWssConverterFactory.kt:11-16 | all four maps start empty |
| DefaultConverters.DefaultWssConverterFactory.ResponseBodyConverter | wsskotlin/src/main/kotlin/ru/r3tam/wsskotlin/DefaultWssConverterFactory.kt:18-20 | it returns `BodyConverter` of the response table and leaves that table as `Memo` says; the request maps are untouched |
| DefaultConverters.DefaultWssConverterFactory.RequestBodyConverter | wsskotlin/src/main/kotlin/ru/r3tam/wsskotlin/DefaultWssConverterFactory.kt:22-24 | the same for the request direction, leaving the response maps untouched |
| DefaultConverters.DefaultWssConverterFactory.PutResponseConverter | wsskotlin/src/main/kotlin/ru/r3tam/wsskotlin/DefaultWssConverterFactory.kt:26-28 | the response table becomes `Put` of the old one; the request maps are untouched |
| DefaultConverters.DefaultWssConverterFactory.PutRequestConverter | wsskotlin/src/main/kotlin/ru/r3tam/wsskotlin/DefaultWssConverterFactory.kt:30-32 | the request table becomes `Put` of the old one; the response maps are untouched |
| DefaultConverters.DefaultWssConverterFactory.GetResponseConverter | wsskotlin/src/main/kotlin/ru/r3tam/wsskotlin/DefaultWssConverterFactory.kt:34-44 | the result and the new response table are those of `Memo` |
| DefaultConverters.DefaultWssConverterFactory.GetRequestConverter | wsskotlin/src/main/kotlin/ru/r3tam/wsskotlin/DefaultWssConverterFactory.kt:46-56 | the result and the new request table are those of `Memo` |
| DefaultConverters.DefaultWssConverterFactory.TryCreateResponseConverter | wsskotlin/src/main/kotlin/ru/r3tam/wsskotlin/DefaultWssConverterFactory.kt:58-62 | it returns `TryCreate` of the response table, including the creator's throw, and changes nothing |
| DefaultConverters.DefaultWssConverterFactory.TryCreateRequestConverter | wsskotlin/src/main/kotlin/ru/r3tam/wsskotlin/DefaultWssConverterFactory.kt:64-68 | it returns `TryCreate` of the request table, including the creator's throw, and changes nothing |
| SessionModel.Status | wsskotlin/src/main/kotlin/ru/r3tam/wsskotlin/RxWebSocket.kt:260-293 | the status is FAILED exactly for `Failed` and CLOSED exactly for `Closed`; every other event is OPENED |
| SessionModel.Publish | wsskotlin/src/main/kotlin/ru/r3tam/wsskotlin/RxWebSocket.kt:115-117 | the event is appended unless the bus completed, and nothing else changes |
| SessionModel.HasSubscribers | wsskotlin/src/main/kotlin/ru/r3tam/wsskotlin/RxWebSocket.kt:199 | a completed processor has no subscribers. An outside listener or a live forwarding subscription counts as one, and with no outside listener and no forwarding subscription there are none. |
| SessionModel.Dispose | wsskotlin/src/main/kotlin/ru/r3tam/wsskotlin/RxWebSocket.kt:207 | every forwarding subscription ends, and the disposable stays disposed |
| SessionModel.SetSocket | wsskotlin/src/main/kotlin/ru/r3tam/wsskotlin/RxWebSocket.kt:160-163 | the handle is installed or cleared, and the close flag is reset |
| SessionModel.RequireNotNull | wsskotlin/src/main/kotlin/ru/r3tam/wsskotlin/RxWebSocket.kt:177-182 | it succeeds exactly on a non-null value, which it returns; null raises `IllegalStateException` with the given message |
| SessionModel.Answers | wsskotlin/src/main/kotlin/ru/r3tam/wsskotlin/RxWebSocket.kt:165-175 | one answer per factory, in list order, from the method of the requested direction |
| SessionModel.MapNotNull | wsskotlin/src/main/kotlin/ru/r3tam/wsskotlin/RxWebSocket.kt:166-167 | it fails exactly when some factory threw, and then with the first throw. Otherwise it is non-empty exactly when some factory answered, and its head is the first factory's converter. |
| SessionModel.ResolveConverter | wsskotlin/src/main/kotlin/ru/r3tam/wsskotlin/RxWebSocket.kt:165-175 | it succeeds exactly when no factory threw and some factory answered, and then gives the first answering factory's converter. Otherwise it fails with the first throw, or with `NoSuchElementException` when no factory answered. |
| SessionModel.FirstConverterUnique | wsskotlin/src/main/kotlin/ru/r3tam/wsskotlin/RxWebSocket.kt:168 | the first answering factory is unique |
| SessionModel.DecodeMessage | wsskotlin/src/main/kotlin/ru/r3tam/wsskotlin/RxWebSocket.kt:62-69 | the result is always a `ParsedMessage` with no error. It carries data exactly when the lookup succeeded and the converter returned a value, and that value is the data. |
| SessionModel.MessagesOf | wsskotlin/src/main/kotlin/ru/r3tam/wsskotlin/RxWebSocket.kt:61 | only `Message` events are kept, and a run of messages is kept whole |
| SessionModel.MessagesOfAppend | wsskotlin/src/main/kotlin/ru/r3tam/wsskotlin/RxWebSocket.kt:61 | the filter works event by event: filtering a concatenation gives the concatenation of the filtered parts |
| SessionModel.ParsedStream | wsskotlin/src/main/kotlin/ru/r3tam/wsskotlin/RxWebSocket.kt:60-69 | one decoded message per `Message` received, in order |
| SessionModel.UndecodableMessagesYieldNulls | wsskotlin/src/main/kotlin/ru/r3tam/wsskotlin/RxWebSocket.kt:62-68 | undecodable messages yield exactly as many `ParsedMessage(null)` and do not end the stream |
| SessionModel.RequestFor | wsskotlin/src/main/kotlin/ru/r3tam/wsskotlin/RxWebSocket.kt:246-250 | it fails exactly on a null or empty address, with the library's message; otherwise it gives the request for that address |
| SessionModel.EncodedText | wsskotlin/src/main/kotlin/ru/r3tam/wsskotlin/RxWebSocket.kt:157 | the result is:<br>• the converter's text when it gives one;<br>• on a null conversion, the value itself when it is a `String`, and null otherwise;<br>• a throw exactly when the converter throws, and then the converter's own exception. |
| SessionModel.DoConnect | wsskotlin/src/main/kotlin/ru/r3tam/wsskotlin/RxWebSocket.kt:119-126 | with a live socket, `Open` is published again and no connection is made. Without one, it fails exactly when the request is unassigned; otherwise exactly one connection is requested and nothing else changes. |
| SessionModel.DoDisconnect | wsskotlin/src/main/kotlin/ru/r3tam/wsskotlin/RxWebSocket.kt:128-133 | it fails exactly without a socket, with the library's message. Otherwise it sets the flag and closes the live socket with the code and reason. |
| SessionModel.DoCancel | wsskotlin/src/main/kotlin/ru/r3tam/wsskotlin/RxWebSocket.kt:135-139 | it fails exactly without a socket. Otherwise it sets the flag and cancels the live socket. |
| SessionModel.SendBytesToSocket | wsskotlin/src/main/kotlin/ru/r3tam/wsskotlin/RxWebSocket.kt:141-146 | it fails exactly without a socket. Otherwise exactly these bytes are sent on the live socket. |
| SessionModel.SendValueToSocket | wsskotlin/src/main/kotlin/ru/r3tam/wsskotlin/RxWebSocket.kt:148-158 | without a socket it raises the usage error, and a failed lookup propagates. A converter that throws raises its own exception unchanged. It succeeds exactly with a socket, a converter that resolved and a conversion that did not throw; it then sends the encoded text and changes nothing else. |
| SessionModel.Copies | wsskotlin/src/main/kotlin/ru/r3tam/wsskotlin/RxWebSocket.kt:54-60 | a stream receives a message exactly when its publisher is still the one installed for its class and a live forwarding subscription exists for that class |
| SessionModel.ListenMessages | wsskotlin/src/main/kotlin/ru/r3tam/wsskotlin/RxWebSocket.kt:49-60 | a fresh publisher replaces the class's publisher only, and one forwarding subscription is added unless disposed. The new stream gets one copy per subscription for the class, earlier streams of the class get none, and other classes are unaffected. |
| SessionModel.OnOpenAction | wsskotlin/src/main/kotlin/ru/r3tam/wsskotlin/RxWebSocket.kt:186-189 | the socket is installed, the flag is cleared and `Open` is published |
| SessionModel.OnMessageAction | wsskotlin/src/main/kotlin/ru/r3tam/wsskotlin/RxWebSocket.kt:190 | the frame is published as a `Message` |
| SessionModel.OnFailureAction | wsskotlin/src/main/kotlin/ru/r3tam/wsskotlin/RxWebSocket.kt:191-196 | `Failed` is published, the subscriptions are disposed and the socket is cleared |
| SessionModel.OnClosedAction | wsskotlin/src/main/kotlin/ru/r3tam/wsskotlin/RxWebSocket.kt:197-209 | a peer close is published. A user close is published and then completes the bus when the bus has subscribers, and otherwise publishes nothing. Subscriptions are always disposed and the socket cleared. |
| SessionModel.React | wsskotlin/src/main/kotlin/ru/r3tam/wsskotlin/RxWebSocket.kt:184-210 | a callback never calls the transport and publishes at most the event it announces; every callback except a close publishes it unless the bus completed. Opening installs the socket, a message leaves the socket and subscriptions alone, and failing or closing clears the socket and ends the forwarding subscriptions. |
| SessionModel.Step | wsskotlin/src/main/kotlin/ru/r3tam/wsskotlin/RxWebSocket.kt:39-113 | only disconnect, cancel and the two sends can throw, plus `connect` when the request is unassigned. Disconnect, cancel and the byte send throw exactly without a socket. Without a socket, no public call reaches the transport except to request a connection. |
| SessionModel.StepGrows | wsskotlin/src/main/kotlin/ru/r3tam/wsskotlin/RxWebSocket.kt:115-210 | every input keeps the session invariant; the logs only grow, and completion and disposal are final |
| SessionModel.RunGrows | wsskotlin/src/main/kotlin/ru/r3tam/wsskotlin/RxWebSocket.kt:115-210 | the same over any run of inputs |
| SessionModel.CompletionIsFinal | wsskotlin/src/main/kotlin/ru/r3tam/wsskotlin/RxWebSocket.kt:199-202 | once the bus completed, nothing is published again, whatever happens |
| SessionModel.ConnectWhileLive | wsskotlin/src/main/kotlin/ru/r3tam/wsskotlin/RxWebSocket.kt:119-123 | connecting twice with a live socket makes no connection and publishes `Open` twice |
| SessionModel.ConnectTwiceBeforeOpen | wsskotlin/src/main/kotlin/ru/r3tam/wsskotlin/RxWebSocket.kt:119-126 | connecting twice before the transport opened requests two connections |
| SessionModel.UserDisconnectCompletes | wsskotlin/src/main/kotlin/ru/r3tam/wsskotlin/RxWebSocket.kt:197-209 | a user disconnect followed by the close callback publishes one `Closed`, completes the bus and clears the socket |
| SessionModel.PeerCloseKeepsBusOpen | wsskotlin/src/main/kotlin/ru/r3tam/wsskotlin/RxWebSocket.kt:203-205 | a peer close is published, the bus stays open, and `connect` then requests a new connection |
| SessionModel.UserCloseUnobserved | wsskotlin/src/main/kotlin/ru/r3tam/wsskotlin/RxWebSocket.kt:198-202 | a user close with nobody subscribed publishes nothing and does not complete the bus |
| SessionModel.FailureThenReconnect | wsskotlin/src/main/kotlin/ru/r3tam/wsskotlin/RxWebSocket.kt:191-196 | a failure publishes one `Failed` and clears the socket, and `connect` then requests a new connection |
| SessionModel.ListenAfterDisposeIsSilent | wsskotlin/src/main/kotlin/ru/r3tam/wsskotlin/RxWebSocket.kt:51-59 | after disposal, a newly listened stream receives nothing |
| SessionModel.DefaultMissPoisonsResolution | wsskotlin/src/main/kotlin/ru/r3tam/wsskotlin/RxWebSocket.kt:165-175 | a default factory with nothing for a class makes both lookups for that class fail. Every message of the class then decodes to `ParsedMessage(null)`, and every send of such a value throws. |
| Sockets.EventBus.constructor | wsskotlin/src/main/kotlin/ru/r3tam/wsskotlin/RxWebSocket.kt:31 | the bus starts empty and not completed |
| Sockets.EventBus.OnNext | wsskotlin/src/main/kotlin/ru/r3tam/wsskotlin/RxWebSocket.kt:116 | the event is appended unless the bus completed |
| Sockets.EventBus.OnComplete | wsskotlin/src/main/kotlin/ru/r3tam/wsskotlin/RxWebSocket.kt:201 | the bus completes, and its events are unchanged |
| Sockets.FactoryList.constructor | wsskotlin/src/main/kotlin/ru/r3tam/wsskotlin/RxWebSocket.kt:218 | the list starts empty |
| Sockets.FactoryList.Add | wsskotlin/src/main/kotlin/ru/r3tam/wsskotlin/RxWebSocket.kt:232 | the factory is appended |
| Sockets.RxWebSocket.constructor | wsskotlin/src/main/kotlin/ru/r3tam/wsskotlin/RxWebSocket.kt:18-34 | the public constructor takes only the client; the request is unassigned, the factory list is its own and empty, and the bus and session are fresh. The session invariant holds from the start. |
| Sockets.RxWebSocket.Listen | wsskotlin/src/main/kotlin/ru/r3tam/wsskotlin/RxWebSocket.kt:75-77 | it returns the socket's own bus |
| Sockets.RxWebSocket.SendEventToStream | wsskotlin/src/main/kotlin/ru/r3tam/wsskotlin/RxWebSocket.kt:115-117 | the state becomes `Publish` of the old one |
| Sockets.RxWebSocket.SetSocket | wsskotlin/src/main/kotlin/ru/r3tam/wsskotlin/RxWebSocket.kt:160-163 | the state becomes `SetSocket` of the old one |
| Sockets.RxWebSocket.DisposeSubscriptions | wsskotlin/src/main/kotlin/ru/r3tam/wsskotlin/RxWebSocket.kt:194 | the state becomes `Dispose` of the old one |
| Sockets.RxWebSocket.Connect | wsskotlin/src/main/kotlin/ru/r3tam/wsskotlin/RxWebSocket.kt:119-126 | the state and the outcome are those of `DoConnect` on the socket's request. Called on a state that keeps the session invariant, it keeps it. |
| Sockets.RxWebSocket.Disconnect | wsskotlin/src/main/kotlin/ru/r3tam/wsskotlin/RxWebSocket.kt:128-133 | the state and the outcome are those of `DoDisconnect`; a throw changes nothing. Called on a state that keeps the session invariant, it keeps it. |
| Sockets.RxWebSocket.Cancel | wsskotlin/src/main/kotlin/ru/r3tam/wsskotlin/RxWebSocket.kt:135-139 | the state and the outcome are those of `DoCancel`. Called on a state that keeps the session invariant, it keeps it. |
| Sockets.RxWebSocket.SendBytes | wsskotlin/src/main/kotlin/ru/r3tam/wsskotlin/RxWebSocket.kt:141-146 | the state and the outcome are those of `SendBytesToSocket`. Called on a state that keeps the session invariant, it keeps it. |
| Sockets.RxWebSocket.Send | wsskotlin/src/main/kotlin/ru/r3tam/wsskotlin/RxWebSocket.kt:148-158 | the state and the outcome are those of `SendValueToSocket` over the shared factory list. Called on a state that keeps the session invariant, it keeps it. |
| Sockets.RxWebSocket.ListenMessages | wsskotlin/src/main/kotlin/ru/r3tam/wsskotlin/RxWebSocket.kt:49-70 | the state and the stream are those of `SessionModel.ListenMessages`. Called on a state that keeps the session invariant, it keeps it. |
| Sockets.RxWebSocket.OnOpenAction | wsskotlin/src/main/kotlin/ru/r3tam/wsskotlin/RxWebSocket.kt:186-189 | the state follows `SessionModel.OnOpenAction`. Called on a state that keeps the session invariant, it keeps it. |
| Sockets.RxWebSocket.OnMessageAction | wsskotlin/src/main/kotlin/ru/r3tam/wsskotlin/RxWebSocket.kt:190 | the state follows `SessionModel.OnMessageAction`. Called on a state that keeps the session invariant, it keeps it. |
| Sockets.RxWebSocket.OnFailureAction | wsskotlin/src/main/kotlin/ru/r3tam/wsskotlin/RxWebSocket.kt:191-196 | the state follows `SessionModel.OnFailureAction`. Called on a state that keeps the session invariant, it keeps it. |
| Sockets.RxWebSocket.OnClosedAction | wsskotlin/src/main/kotlin/ru/r3tam/wsskotlin/RxWebSocket.kt:197-209 | the state follows `SessionModel.OnClosedAction`. Called on a state that keeps the session invariant, it keeps it. |
| Sockets.RxWebSocket.OnCallback | wsskotlin/src/main/kotlin/ru/r3tam/wsskotlin/RxWebSocket.kt:184-210 | a listener callback changes the state as the action it forwards to says. Called on a state that keeps the session invariant, it keeps it. |
| Sockets.Builder.constructor | wsskotlin/src/main/kotlin/ru/r3tam/wsskotlin/RxWebSocket.kt:215-219 | client and request start unassigned, and the factory list starts fresh and empty |
| Sockets.Builder.SetClient | wsskotlin/src/main/kotlin/ru/r3tam/wsskotlin/RxWebSocket.kt:221-223 | the client is assigned |
| Sockets.Builder.SetRequest | wsskotlin/src/main/kotlin/ru/r3tam/wsskotlin/RxWebSocket.kt:226-228 | the request is assigned |
| Sockets.Builder.AddConverterFactory | wsskotlin/src/main/kotlin/ru/r3tam/wsskotlin/RxWebSocket.kt:231-233 | a non-null factory is appended, and a null one is ignored |
| Sockets.Builder.Build | wsskotlin/src/main/kotlin/ru/r3tam/wsskotlin/RxWebSocket.kt:237-242 | an unassigned client is reported before an unassigned request, because the socket is constructed before the request is copied. It succeeds exactly when both are assigned, giving a fresh socket in the initial session that holds the builder's request and shares its factory list. |
| Sockets.Builder.BuildUrl | wsskotlin/src/main/kotlin/ru/r3tam/wsskotlin/RxWebSocket.kt:245-256 | a null or empty address is refused and leaves the builder unchanged. Otherwise the builder's request is set first, and then an unassigned client is reported. It succeeds exactly with a valid address and a client, giving a fresh socket on that address that shares the factory list. |

## Left out

- **The transport and the threads.** Calls into okhttp are recorded in order as `TransportCall` values, and what the transport does with them is not modelled. The transport's callbacks come in as inputs, one at a time; RxJava scheduling, backpressure and concurrent callbacks are not modelled.
- **`Request.Builder().url(...)` validation.** okhttp rejects a malformed address (`build(url)`, `RxWebSocket.kt:250`); the model accepts any non-empty address.
- **Close-code validation.** okhttp validates the close code of `close(code, reason)`; that is not modelled.
- **Outside subscribers of `listen()`.** They are not objects in the model. Whether any exist is a parameter of the close callback, which is the only place the code asks.
- **Downstream delivery.** A `listenMessages` stream is described by the publisher it reads from and by `Copies`: how many times it receives each message. The RxJava operators downstream of it are not modelled as objects.
- **The error callback of the forwarding subscription** (`RxWebSocket.kt:56-58`). It is only reached if the processor errors or a downstream subscriber throws, and the model represents neither.
- **`requireNotNull(message, ...)`** on the message argument of both sends. Kotlin's non-null parameter types rule the null case out before it is reached.
- **`INTERNAL_ERROR`.** The constant is never used.
- **Reflection.** `Class`, `Type` and Gson's `TypeToken` are replaced by class ids and a token of a raw class with type arguments. The session only ever asks for plain classes.
- **Converter behaviour.** Converters and their creators are opaque. What converting does is a function the caller supplies (`Conversion.Converters`). The Gson converters are not part of this model, and neither is `WebSocketConverter.kt` beyond its interface.
- **Factories as answer functions.** In the session, a factory is seen through the answers it gives at the time of a lookup (`Conversion.Factory`). `DefaultConverters.AsFactory` gives that view of a `DefaultWssConverterFactory` with its tables as they are. The caching it does during a session's lookups is modelled separately by the factory class and `DefaultConverters.LookupAll`.
- **Unchecked casts.** The casts in `get*Converter` and `responseConverter` are unchecked and cannot fail on erased generics, so they are identities in the model.
- SessionModel.SendValueToSocket: when the converter returns null and the value is not a `String`, the model records a send of null text and returns normally. okhttp's `WebSocket.send` then throws `NullPointerException`, which the model does not show, because the transport's own checks are outside the model.
- **Integer widths.** Close codes are unbounded integers, which is harmless because the library only passes them along.

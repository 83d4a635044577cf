/**
 * Values shared by every part of the model: nullable references as `Option`,
 * thrown exceptions as the error half of `Result`, and the opaque identities
 * that stand for objects owned by the transport or by the application.
 */
module Base {

  /** A Kotlin nullable reference: `None` is `null`. */
  datatype Option<+T> = None | Some(value: T)

  /** The exceptions the modelled code throws or lets through. */
  datatype Exception =
    | IllegalState(message: string)       // IllegalStateException, the library's usage errors
    | NullPointer                         // NullPointerException, raised by Kotlin's `!!`
    | NoSuchElement                       // NoSuchElementException, raised by `first()` on an empty list
    | UninitializedProperty(name: string) // a `lateinit` property read before it was assigned
    | Thrown(cause: Cause)                // anything thrown by code supplied from outside the library

  /** The outcome of a call that may throw: a value, or the exception it raised. */
  datatype Result<+T> = Ok(value: T) | Err(error: Exception)

  /** The outcome of a call that returns `Unit` or throws. */
  datatype Outcome = Returned | Raised(error: Exception)

  /** What a caller of a `Unit` function sees of a call that returned a result or threw. */
  function OutcomeOf<T>(r: Result<T>): (o: Outcome)
    ensures o.Raised? <==> r.Err?
    ensures r.Err? ==> o.error == r.error
  {
    match r
    case Ok(_) => Returned
    case Err(e) => Raised(e)
  }

  /** An octet of a binary frame (okio `ByteString` holds a sequence of them). */
  newtype byte = x: int | 0 <= x < 256

  /** Identity of an okhttp `WebSocket` object handed over by the transport. */
  type SocketId = nat

  /** Identity of an okhttp `Response` object handed over by the transport. */
  type ResponseId = nat

  /** Identity of a `Throwable`. */
  type Cause = nat

  /** Identity of an `OkHttpClient`. */
  type ClientId = nat

  /** A `java.lang.Class` in the role of a type key; replaces reflection. */
  type TypeId = nat

  /** The class id given to `kotlin.String`. */
  const StringClass: TypeId := 0

  /**
   * An application value handed to `send` or produced by a response converter:
   * either a Kotlin `String` or some other object, known by its class and an
   * opaque identity.
   */
  datatype AnyValue = StringValue(text: string) | ObjectValue(cls: TypeId, identity: nat)

  /** Values that exist: only a `String` has the `String` class, which is final. */
  type AppValue = v: AnyValue | v.StringValue? || v.cls != StringClass witness StringValue("")

  /** `value.javaClass`, the runtime class of an application value. */
  function ClassOf(v: AppValue): (c: TypeId)
    ensures c == StringClass <==> v.StringValue?
    ensures v.ObjectValue? ==> c == v.cls
  {
    match v
    case StringValue(_) => StringClass
    case ObjectValue(cls, _) => cls
  }
}

/**
 * The converter boundary: `WebSocketConverter<F, T>` and its `Factory`.
 * Concrete converters (the Gson ones) are outside the model; a converter is an
 * opaque identity, and what converting with it does is an external function.
 */
module Conversion {
  import opened Base

  /**
   * A `java.lang.reflect.Type` as Gson's `TypeToken` sees it: the raw class and
   * the type arguments (`List<Chat>` has raw class `List` and argument `Chat`).
   */
  datatype TypeToken = TypeToken(raw: TypeId, args: seq<TypeToken>)

  /** The token of a plain class, which is what the session passes to factories. */
  function ClassToken(cls: TypeId): (t: TypeToken)
    ensures t.raw == cls && t.args == []
  {
    TypeToken(cls, [])
  }

  /** Identity of a `WebSocketConverter` instance. */
  type ConverterId = nat

  /** What one call `factory.responseBodyConverter(type)` (or the request one) gives back. */
  datatype Answer =
    | Converter(id: ConverterId)  // a non-null converter
    | NoConverter                 // null: the factory does not handle the type
    | Threw(error: Exception)     // the call threw

  /**
   * A `WebSocketConverter.Factory`, seen through its two methods as they answer
   * at the time of a lookup.
   */
  datatype Factory = Factory(responseBodyConverter: TypeToken -> Answer, requestBodyConverter: TypeToken -> Answer)

  /** What `converter.convert(value)` does: returns a value, returns null, or throws. */
  datatype ConvertResult<+T> = Converted(value: T) | ConvertedNull | ConvertThrew(error: Exception)

  /**
   * The behaviour of every converter: `fromText` is a response converter
   * (`WebSocketConverter<String, T>`, whose input may be null), `toText` a
   * request converter (`WebSocketConverter<T, String>`).
   */
  datatype Converters = Converters(
    fromText: (ConverterId, Option<string>) -> ConvertResult<AppValue>,
    toText: (ConverterId, AppValue) -> ConvertResult<string>)
}

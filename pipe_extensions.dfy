/**
 * `PipeExtensions.GetPayload<T>`: demand a payload of type T from a pipe context,
 * turning the try-style lookup into either the stored value or a
 * `PayloadNotFoundException` whose message names the missing type.
 */
module PipeExtensions {
  import opened Wrappers
  import opened TypeMetadata

  /** The exception thrown when a demanded payload is absent. */
  datatype PayloadNotFoundException = PayloadNotFoundException(message: string)

  /**
   * A pipe context, reduced to its payload store: at most one payload per type,
   * keyed by the payload's type. V is the (common) representation of payload values.
   */
  datatype PipeContext<V> = PipeContext(payloads: map<TypeTag, V>) {

    /** The context's own try-style lookup: the payload stored for `t`, if any. */
    function TryGetPayload(t: TypeTag): (payload: Option<V>)
      ensures payload.Some? <==> t in payloads
      ensures payload.Some? ==> payload.value == payloads[t]
    {
      if t in payloads then Some(payloads[t]) else None
    }
  }

  /** The fixed text that starts every payload-not-found message. */
  const NotFoundPrefix: string := "The payload was not found: "

  /** The message of the exception for a missing payload whose type is named `typeName`. */
  function NotFoundMessage(typeName: string): string
  {
    NotFoundPrefix + typeName
  }

  /**
   * Reads back the type name from a payload-not-found message, or None when the
   * text does not start with the fixed prefix.
   */
  function PayloadTypeName(message: string): (typeName: Option<string>)
    ensures typeName.Some? ==> message == NotFoundMessage(typeName.value)
  {
    if |NotFoundPrefix| <= |message| && message[..|NotFoundPrefix|] == NotFoundPrefix
    then Some(message[|NotFoundPrefix|..])
    else None
  }

  /** `name` occurs somewhere in `message`. */
  ghost predicate Mentions(message: string, name: string)
  {
    exists i :: 0 <= i <= |message| && name <= message[i..]
  }

  /**
   * GetPayload<T>: the stored payload when TryGetPayload finds one, otherwise a
   * PayloadNotFoundException naming `shortName(t)`. It is a function of the
   * context, so the payload store is the same before and after.
   */
  function GetPayload<V>(context: PipeContext<V>, t: TypeTag, shortName: TypeTag -> string)
    : (r: Result<V, PayloadNotFoundException>)
    ensures r.Success? <==> context.TryGetPayload(t).Some?
    ensures r.Success? <==> t in context.payloads
    ensures r.Success? ==> r.value == context.payloads[t]
    ensures r.Failure? ==> r.error.message == NotFoundMessage(shortName(t))
  {
    match context.TryGetPayload(t)
    case None => Failure(PayloadNotFoundException(NotFoundMessage(shortName(t))))
    case Some(payload) => Success(payload)
  }

  /** Reading the type name back from a payload-not-found message gives exactly the name written into it. */
  lemma NotFoundMessageRoundTrip(typeName: string)
    ensures PayloadTypeName(NotFoundMessage(typeName)) == Some(typeName)
  {
  }

  /** Every payload-not-found message names the missing type. */
  lemma {:induction false} NotFoundMessageMentionsType(typeName: string)
    ensures Mentions(NotFoundMessage(typeName), typeName)
  {
    var message := NotFoundMessage(typeName);
    assert typeName <= message[|NotFoundPrefix|..];
  }

  /**
   * When the context holds no payload of the demanded type, GetPayload fails, and
   * its message names the type's short name, which can be read back from it.
   */
  lemma GetPayloadFailureNamesType<V>(context: PipeContext<V>, t: TypeTag, shortName: TypeTag -> string)
    requires t !in context.payloads
    ensures GetPayload(context, t, shortName).Failure?
    ensures Mentions(GetPayload(context, t, shortName).error.message, shortName(t))
    ensures PayloadTypeName(GetPayload(context, t, shortName).error.message) == Some(shortName(t))
  {
    NotFoundMessageMentionsType(shortName(t));
    NotFoundMessageRoundTrip(shortName(t));
  }

  /** On a context with no payloads at all, GetPayload fails for every type, naming that type. */
  lemma GetPayloadOnEmptyContext<V>(t: TypeTag, shortName: TypeTag -> string)
    ensures GetPayload<V>(PipeContext(map[]), t, shortName).Failure?
    ensures Mentions(GetPayload<V>(PipeContext(map[]), t, shortName).error.message, shortName(t))
  {
    GetPayloadFailureNamesType<V>(PipeContext(map[]), t, shortName);
  }
}

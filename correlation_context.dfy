/**
 * The per-request correlation context: the correlation id and the name of the
 * header it was read from / is written to. Both properties are get-only, so a
 * context is a value: nothing changes it after construction.
 */
module CorrelationContexts {
  import opened Wrappers
  import opened Exceptions

  /** Used when the context is created with a null id. */
  const DefaultCorrelationId: string := "Not set"

  const HeaderRequiredMessage: string := "A header must be provided."

  /** `correlationId ??= DefaultCorrelationId`: only null is replaced. */
  function IdOrDefault(correlationId: NString): (id: string)
    ensures correlationId.Some? ==> id == correlationId.value
    ensures correlationId.None? ==> id == DefaultCorrelationId && id != ""
  {
    if correlationId.None? then DefaultCorrelationId else correlationId.value
  }

  datatype CorrelationContext = CorrelationContext(correlationId: string, header: string)

  /** What every constructed context satisfies: it names a header. */
  predicate Valid(c: CorrelationContext) {
    c.header != ""
  }

  /**
   * The constructor: a null id becomes `DefaultCorrelationId` (`??=` replaces
   * null only, so an empty id stays empty); a null or empty header throws
   * `ArgumentException` and no context exists.
   */
  function NewCorrelationContext(correlationId: NString, header: NString): (r: Result<CorrelationContext, Exception>)
    ensures r.Failure? <==> IsNullOrEmpty(header)
    ensures r.Failure? ==> r.error == Argument(HeaderRequiredMessage, "header")
    ensures r.Success? ==> Valid(r.value) && Some(r.value.header) == header
    ensures r.Success? && correlationId.Some? ==> r.value.correlationId == correlationId.value
    ensures r.Success? && correlationId.None? ==> r.value.correlationId == DefaultCorrelationId
  {
    var id := IdOrDefault(correlationId);
    if IsNullOrEmpty(header) then Failure(Argument(HeaderRequiredMessage, "header"))
    else Success(CorrelationContext(id, header.value))
  }

  /** Every valid context is what the constructor builds from its own two properties. */
  lemma ConstructFromProperties(c: CorrelationContext)
    requires Valid(c)
    ensures NewCorrelationContext(Some(c.correlationId), Some(c.header)) == Success(c)
  {
  }

  /** Only null is defaulted: an empty id is kept as the empty string. */
  lemma EmptyIdIsKept(header: string)
    requires header != ""
    ensures NewCorrelationContext(Some(""), Some(header)) == Success(CorrelationContext("", header))
  {
  }
}

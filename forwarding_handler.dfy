/**
 * The outbound forwarding handler: before passing an outgoing request to the
 * inner handler it adds the current correlation id under the context's header
 * name, unless the request already carries that header.
 */
module ForwardingHandler {
  import opened Wrappers
  import opened HeaderCollection
  import opened CorrelationContexts
  import opened ContextFactory

  /** The outgoing request message; its header collection is changed in place. */
  class OutgoingRequest {
    var headers: Headers

    constructor (headers: Headers)
      ensures this.headers == headers
    {
      this.headers := headers;
    }
  }

  /** The handler the request is passed on to: it records the headers of every request it receives. */
  class InnerHandler {
    var received: seq<Headers>

    constructor ()
      ensures received == []
    {
      received := [];
    }

    method SendAsync(request: OutgoingRequest)
      modifies this
      ensures received == old(received) + [request.headers]
    {
      received := received + [request.headers];
    }
  }

  /** The outgoing headers after the handler's conditional insertion. */
  function ForwardHeaders(ambient: Option<CorrelationContext>, h: Headers): (r: Headers)
    ensures |h| <= |r| <= |h| + 1 && r[..|h|] == h
    ensures |r| == |h| + 1 <==> ambient.Some? && ambient.value.correlationId != "" && !ContainsKey(h, ambient.value.header)
    ensures ambient.Some? && ambient.value.correlationId != "" ==> ContainsKey(r, ambient.value.header)
  {
    if ambient.Some? && ambient.value.correlationId != "" && !ContainsKey(h, ambient.value.header) then
      var e := Header(ambient.value.header, [ambient.value.correlationId]);
      assert (h + [e])[|h|] == e && SameName(e.name, ambient.value.header);
      h + [e]
    else h
  }

  class CorrelationIdHandler {
    const accessor: ContextAccessor?
    const inner: InnerHandler

    constructor (accessor: ContextAccessor?, inner: InnerHandler)
      ensures this.accessor == accessor && this.inner == inner
    {
      this.accessor, this.inner := accessor, inner;
    }

    /** The context visible through the accessor: none when there is no accessor or it holds null. */
    function Current(): (current: Option<CorrelationContext>)
      reads this, accessor
      ensures accessor == null ==> current.None?
      ensures accessor != null ==> current == accessor.context
    {
      Ambient(BindingOf(accessor))
    }

    method SendAsync(request: OutgoingRequest)
      modifies request, inner
      ensures request.headers == ForwardHeaders(Current(), old(request.headers))
      ensures inner.received == old(inner.received) + [request.headers]
    {
      var correlationId: NString := if accessor == null || accessor.context.None? then None
                                    else Some(accessor.context.value.correlationId);
      if !IsNullOrEmpty(correlationId) && !ContainsKey(request.headers, accessor.context.value.header) {
        request.headers := request.headers + [Header(accessor.context.value.header, [accessor.context.value.correlationId])];
      }
      inner.SendAsync(request);
    }
  }

  /** No context, or an empty id: the outgoing headers are unchanged. */
  lemma NoContextNoChange(ambient: Option<CorrelationContext>, h: Headers)
    requires ambient.None? || ambient.value.correlationId == ""
    ensures ForwardHeaders(ambient, h) == h
  {
  }

  /** A header the request already carries under the context's name always wins: nothing is overwritten or added. */
  lemma ExistingHeaderWins(ctx: CorrelationContext, h: Headers)
    requires ContainsKey(h, ctx.header)
    ensures ForwardHeaders(Some(ctx), h) == h
  {
  }

  /**
   * With a non-empty id and no header of that name, the request ends up
   * carrying the id exactly once under the context's header name; every other
   * name keeps its entries and values, and the existing entries stay in front.
   */
  lemma {:induction false} IdForwardedWhenAbsent(ctx: CorrelationContext, h: Headers, other: string)
    requires ctx.correlationId != "" && !ContainsKey(h, ctx.header)
    ensures var h' := ForwardHeaders(Some(ctx), h);
            h'[..|h|] == h &&
            CountKey(h', ctx.header) == 1 && TryGetValue(h', ctx.header) == Some([ctx.correlationId]) &&
            (!SameName(other, ctx.header) ==> CountKey(h', other) == CountKey(h, other) && TryGetValue(h', other) == TryGetValue(h, other))
  {
    var e := Header(ctx.header, [ctx.correlationId]);
    assert SameName(ctx.header, ctx.header);
    CountKeyAppend(h, e, ctx.header);
    TryGetValueAppend(h, e, ctx.header);
    CountKeyAppend(h, e, other);
    TryGetValueAppend(h, e, other);
  }
}

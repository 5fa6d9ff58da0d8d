/**
 * The context accessor (one mutable cell holding the current context) and the
 * factory that binds a new context into it and clears it again.
 */
module ContextFactory {
  import opened Wrappers
  import opened Exceptions
  import opened CorrelationContexts

  /** `ICorrelationContextAccessor`: the current request's context, `None` for null. */
  class ContextAccessor {
    var context: Option<CorrelationContext>

    constructor ()
      ensures context == None
    {
      context := None;
    }
  }

  /** What a factory sees of its accessor: none at all, or the accessor's current content. */
  datatype Binding = NoAccessor | Bound(current: Option<CorrelationContext>)

  /** What a holder of a possibly null accessor sees of it. */
  function BindingOf(a: ContextAccessor?): (b: Binding)
    reads a
    ensures b.NoAccessor? <==> a == null
    ensures a != null ==> b.current == a.context
  {
    if a == null then NoAccessor else Bound(a.context)
  }

  /** The context code observes through the accessor; nothing when there is no accessor. */
  function Ambient(b: Binding): Option<CorrelationContext> {
    if b.NoAccessor? then None else b.current
  }

  /**
   * `Create(id, header)`: the context the constructor builds, and the binding
   * afterwards. A failed construction leaves the accessor untouched; a
   * successful one makes the accessor (if any) hold exactly the returned context.
   */
  function CreateEffect(b: Binding, id: NString, header: NString): (r: (Result<CorrelationContext, Exception>, Binding))
    ensures r.0 == NewCorrelationContext(id, header)
    ensures r.0.Failure? ==> r.1 == b
    ensures r.0.Success? && b.Bound? ==> r.1 == Bound(Some(r.0.value))
    ensures b.NoAccessor? ==> r.1 == NoAccessor
  {
    var c := NewCorrelationContext(id, header);
    if c.Success? && b.Bound? then (c, Bound(Some(c.value))) else (c, b)
  }

  /** `Dispose()`: the accessor (if any) holds null afterwards, whatever it held before. */
  function DisposeEffect(b: Binding): (r: Binding)
    ensures Ambient(r) == None
    ensures r.NoAccessor? <==> b.NoAccessor?
  {
    if b.NoAccessor? then NoAccessor else Bound(None)
  }

  class CorrelationContextFactory {
    const accessor: ContextAccessor?

    /** The parameterless constructor: no accessor. */
    constructor ()
      ensures accessor == null
    {
      accessor := null;
    }

    constructor WithAccessor(a: ContextAccessor?)
      ensures accessor == a
    {
      accessor := a;
    }

    function Binding(): Binding
      reads this, accessor
    {
      BindingOf(accessor)
    }

    method Create(correlationId: NString, header: NString) returns (r: Result<CorrelationContext, Exception>)
      modifies accessor
      ensures (r, Binding()) == CreateEffect(old(Binding()), correlationId, header)
    {
      r := NewCorrelationContext(correlationId, header);
      if r.Success? && accessor != null {
        accessor.context := Some(r.value);
      }
    }

    method Dispose()
      modifies accessor
      ensures Binding() == DisposeEffect(old(Binding()))
    {
      if accessor != null {
        accessor.context := None;
      }
    }
  }

  /** A successful `Create` followed by `Dispose` leaves nothing bound, whatever was bound before. */
  lemma CreateThenDisposeClears(b: Binding, id: NString, header: NString)
    requires !IsNullOrEmpty(header)
    ensures CreateEffect(b, id, header).0.Success?
    ensures DisposeEffect(CreateEffect(b, id, header).1) == (if b.NoAccessor? then NoAccessor else Bound(None))
  {
  }

  /** During the request (between `Create` and `Dispose`) the accessor exposes the created context. */
  lemma CreatedContextIsAmbient(b: Binding, id: NString, header: NString)
    requires b.Bound? && !IsNullOrEmpty(header)
    ensures var (r, b') := CreateEffect(b, id, header);
            r.Success? && Ambient(b') == Some(r.value) && r.value.header == header.value
  {
  }
}

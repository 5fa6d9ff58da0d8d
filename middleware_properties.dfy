/**
 * What the middleware's decision sequence guarantees, stated over
 * `Middleware.InvokeEffect` (which `CorrelationIdMiddleware.Invoke` is proved
 * to perform) and over the response-start callbacks.
 */
module MiddlewareProperties {
  import opened Wrappers
  import opened Exceptions
  import opened HeaderCollection
  import opened CorrelationContexts
  import opened ContextFactory
  import opened Middleware
  import opened ForwardingHandler

  /** The request gets past the provider check and the enforcement check. */
  predicate Proceeds(o: Options, provider: Option<Provider>, http: HttpState) {
    provider.Some? && (HasCorrelationIdHeader(http, o) || !o.enforceHeader)
  }

  /**
   * With no provider registered the request throws straight away, whatever the
   * options (even with a generator function) and whatever the request headers:
   * nothing is read, written, created or called.
   */
  lemma MissingProviderThrows(o: Options, next: Downstream, http: HttpState, b: Binding)
    ensures InvokeEffect(o, None, next, http, b) == InvokeResult(Threw(InvalidOperation(MissingProviderMessage)), http, b, [])
  {
  }

  /**
   * The header counts as present exactly when the first entry under the request
   * header name is not null-or-empty; generation is required exactly when it is
   * not present.
   */
  lemma HeaderPresence(o: Options, http: HttpState)
    ensures HasCorrelationIdHeader(http, o) <==>
            exists i :: 0 <= i < |http.requestHeaders| && SameName(http.requestHeaders[i].name, o.requestHeader) &&
                        !ValuesNullOrEmpty(http.requestHeaders[i].values) &&
                        forall j :: 0 <= j < i ==> !SameName(http.requestHeaders[j].name, o.requestHeader)
    ensures RequiresGenerationOfCorrelationId(HasCorrelationIdHeader(http, o), RequestHeaderValues(http, o))
            <==> !HasCorrelationIdHeader(http, o)
  {
    var r := TryGetValue(http.requestHeaders, o.requestHeader);
    if r.Some? {
      var i :| 0 <= i < |http.requestHeaders| && SameName(http.requestHeaders[i].name, o.requestHeader) &&
               http.requestHeaders[i].values == r.value &&
               forall j :: 0 <= j < i ==> !SameName(http.requestHeaders[j].name, o.requestHeader);
      forall i' | 0 <= i' < |http.requestHeaders| && SameName(http.requestHeaders[i'].name, o.requestHeader) &&
                  forall j :: 0 <= j < i' ==> !SameName(http.requestHeaders[j].name, o.requestHeader)
        ensures i' == i
      {
      }
    }
  }

  /**
   * Several values under the header count as present even when the first is
   * empty; the id is then that empty first value and nothing is generated.
   */
  lemma EmptyFirstOfSeveralValuesIsUsed(o: Options, p: Provider, http: HttpState, rest: seq<string>)
    requires !o.ignoreRequestHeader && rest != []
    requires TryGetValue(http.requestHeaders, o.requestHeader) == Some([""] + rest)
    ensures HasCorrelationIdHeader(http, o)
    ensures CorrelationIdOf(o, p, http) == Some("")
  {
  }

  /**
   * With the header enforced and absent: status 400, the fixed message appended
   * to the body, and nothing else: no id, no trace identifier change, no
   * context, no downstream call, no disposal.
   */
  lemma EnforcementShortCircuits(o: Options, p: Provider, next: Downstream, http: HttpState, b: Binding)
    requires o.enforceHeader && !HasCorrelationIdHeader(http, o)
    ensures InvokeEffect(o, Some(p), next, http, b) ==
            InvokeResult(Returned, http.(statusCode := BadRequest, body := http.body + HeaderRequiredBody(o.requestHeader)), b, [])
  {
  }

  /**
   * A present header (not ignored) gives the first header value as the id, and
   * neither the generator function nor the provider is consulted: any other
   * generator or provider gives the same id.
   */
  lemma HeaderValueIsUsed(o: Options, p: Provider, http: HttpState, generator: Option<() -> NString>, p': Provider)
    requires HasCorrelationIdHeader(http, o) && !o.ignoreRequestHeader
    ensures |RequestHeaderValues(http, o)| > 0
    ensures CorrelationIdOf(o, p, http) == Some(RequestHeaderValues(http, o)[0])
    ensures CorrelationIdOf(o.(correlationIdGenerator := generator), p', http) == CorrelationIdOf(o, p, http)
  {
  }

  /**
   * When generation is needed (header absent, or ignored) the generator
   * function is used if set, and the provider only otherwise.
   */
  lemma GeneratedWhenNeeded(o: Options, p: Provider, http: HttpState, p': Provider)
    requires o.ignoreRequestHeader || !HasCorrelationIdHeader(http, o)
    ensures o.correlationIdGenerator.Some? ==>
              CorrelationIdOf(o, p, http) == o.correlationIdGenerator.value() &&
              CorrelationIdOf(o, p', http) == CorrelationIdOf(o, p, http)
    ensures o.correlationIdGenerator.None? ==>
              CorrelationIdOf(o, p, http) == ProviderGenerate(p, RequestView(http.requestHeaders, http.traceIdentifier))
  {
  }

  /** The GUID provider always yields a non-empty id; the trace identifier provider echoes the trace identifier. */
  lemma ProviderIds(o: Options, http: HttpState, g: GuidText)
    requires o.correlationIdGenerator.None? && (o.ignoreRequestHeader || !HasCorrelationIdHeader(http, o))
    ensures CorrelationIdOf(o, GuidProvider(g), http) == Some(g) && !IsNullOrEmpty(Some(g))
    ensures CorrelationIdOf(o, TraceIdProvider, http) == Some(http.traceIdentifier)
  {
    assert |g| == 36;
  }

  /**
   * Once past the checks, with a valid request header name: `Create(id,
   * RequestHeader)` is called first, then downstream with
   *   - the trace identifier replaced by the id iff `UpdateTraceIdentifier` is set and the id is non-empty,
   *   - one response header callback registered iff `IncludeInResponse` is set and the id is non-empty,
   *   - nothing else in the request state changed,
   *   - the created context visible through the accessor, its header the request header name,
   *   - a logging scope iff scoping is enabled with a non-empty key and id.
   */
  lemma ContextLifecycle(o: Options, p: Provider, next: Downstream, http: HttpState, b: Binding)
    requires Proceeds(o, Some(p), http) && o.requestHeader != ""
    ensures var id := CorrelationIdOf(o, p, http);
            var ctx := CorrelationContext(IdOrDefault(id), o.requestHeader);
            var r := InvokeEffect(o, Some(p), next, http, b);
            |r.calls| >= 2 && r.calls[0] == Create(id, o.requestHeader) && r.calls[1].Next? &&
            var view := r.calls[1].view;
            (view.http.traceIdentifier ==
               if o.updateTraceIdentifier && !IsNullOrEmpty(id) then id.value else http.traceIdentifier) &&
            (view.http.onStarting == http.onStarting +
               if o.includeInResponse && !IsNullOrEmpty(id) then [AddResponseHeaderIfAbsent(o.responseHeader, id.value)] else []) &&
            view.http.(traceIdentifier := http.traceIdentifier, onStarting := http.onStarting) == http &&
            view.ambient == (if b.Bound? then Some(ctx) else None) &&
            (view.loggingScope.Some? <==> o.addToLoggingScope && !IsNullOrEmpty(o.loggingScopeKey) && !IsNullOrEmpty(id))
  {
    var id := CorrelationIdOf(o, p, http);
    var ctx := CorrelationContext(IdOrDefault(id), o.requestHeader);
    var http1 := if !IsNullOrEmpty(id) && o.updateTraceIdentifier then http.(traceIdentifier := id.value) else http;
    var (created, b1) := CreateEffect(b, id, Some(o.requestHeader));
    assert created == Success(ctx);
    assert Ambient(b1) == (if b.Bound? then Some(ctx) else None);
    assert InvokeEffect(o, Some(p), next, http, b) == RunWithContext(o, next, id, http1, b1);
  }

  /**
   * Downstream runs exactly once. Only if it completes does `Dispose` follow,
   * which clears the accessor; a downstream exception skips `Dispose` and
   * leaves the created context bound.
   */
  lemma DisposeOnlyOnCompletion(o: Options, p: Provider, next: Downstream, http: HttpState, b: Binding)
    requires Proceeds(o, Some(p), http) && o.requestHeader != ""
    ensures var id := CorrelationIdOf(o, p, http);
            var ctx := CorrelationContext(IdOrDefault(id), o.requestHeader);
            var r := InvokeEffect(o, Some(p), next, http, b);
            |r.calls| >= 2 && r.calls[1].Next? &&
            var view := r.calls[1].view;
            (next(view).Completed? ==>
               r == InvokeResult(Returned, next(view).http, DisposeEffect(b), [Create(id, o.requestHeader), Next(view), Dispose]) &&
               Ambient(r.binding) == None) &&
            (next(view).Faulted? ==>
               r == InvokeResult(Threw(Downstream), next(view).http, if b.Bound? then Bound(Some(ctx)) else NoAccessor,
                                 [Create(id, o.requestHeader), Next(view)]))
  {
    var id := CorrelationIdOf(o, p, http);
    var ctx := CorrelationContext(IdOrDefault(id), o.requestHeader);
    var http1 := if !IsNullOrEmpty(id) && o.updateTraceIdentifier then http.(traceIdentifier := id.value) else http;
    var (created, b1) := CreateEffect(b, id, Some(o.requestHeader));
    assert created == Success(ctx);
    assert b1 == (if b.Bound? then Bound(Some(ctx)) else NoAccessor);
    assert DisposeEffect(b1) == DisposeEffect(b);
    assert InvokeEffect(o, Some(p), next, http, b) == RunWithContext(o, next, id, http1, b1);
  }

  /**
   * An empty request header name makes `Create` throw `ArgumentException`: the
   * trace identifier may already have been updated, but the accessor is
   * untouched and downstream never runs.
   */
  lemma EmptyRequestHeaderNameThrows(o: Options, p: Provider, next: Downstream, http: HttpState, b: Binding)
    requires Proceeds(o, Some(p), http) && o.requestHeader == ""
    ensures var id := CorrelationIdOf(o, p, http);
            InvokeEffect(o, Some(p), next, http, b) ==
            InvokeResult(Threw(Argument(HeaderRequiredMessage, "header")),
                         if o.updateTraceIdentifier && !IsNullOrEmpty(id) then http.(traceIdentifier := id.value) else http,
                         b, [Create(id, "")])
  {
  }

  /** The callback most recently registered for a name (it runs first). */
  function LastCallbackFor(cbs: seq<StartingCallback>, name: string): Option<string>
    decreases |cbs|
  {
    if cbs == [] then None
    else if SameName(cbs[|cbs| - 1].name, name) then Some(cbs[|cbs| - 1].value)
    else LastCallbackFor(cbs[..|cbs| - 1], name)
  }

  /** Same-named keys are found together. */
  lemma ContainsSameName(h: Headers, a: string, b: string)
    requires SameName(a, b)
    ensures ContainsKey(h, a) <==> ContainsKey(h, b)
  {
    if ContainsKey(h, a) {
      var i :| 0 <= i < |h| && SameName(h[i].name, a);
      assert SameName(h[i].name, b);
    }
    if ContainsKey(h, b) {
      var i :| 0 <= i < |h| && SameName(h[i].name, b);
      assert SameName(h[i].name, a);
    }
  }

  /**
   * Running any registered response-header callbacks never throws. For every
   * name: a name the response already carried is left as it was; otherwise it
   * ends up carried exactly once, with the value of the most recently
   * registered callback for it, or not at all if no callback names it.
   */
  lemma {:induction false} StartingCallbacksEffect(h: Headers, cbs: seq<StartingCallback>, name: string)
    ensures RunStartingCallbacks(h, cbs).Success?
    ensures var h' := RunStartingCallbacks(h, cbs).value;
            CountKey(h', name) == (if !ContainsKey(h, name) && LastCallbackFor(cbs, name).Some? then 1 else CountKey(h, name)) &&
            TryGetValue(h', name) == (if ContainsKey(h, name) then TryGetValue(h, name)
                                      else if LastCallbackFor(cbs, name).Some? then Some([LastCallbackFor(cbs, name).value])
                                      else None)
    decreases |cbs|
  {
    if cbs != [] {
      var cb := cbs[|cbs| - 1];
      var e := Header(cb.name, [cb.value]);
      var h1 := if ContainsKey(h, cb.name) then h else h + [e];
      assert RunCallback(h, cb) == Success(h1);
      if !ContainsKey(h, cb.name) {
        CountKeyAppend(h, e, name);
        TryGetValueAppend(h, e, name);
      }
      if SameName(cb.name, name) {
        ContainsSameName(h, cb.name, name);
      }
      StartingCallbacksEffect(h1, cbs[..|cbs| - 1], name);
    }
  }

  /**
   * Two middlewares in one pipeline each register a callback for the same
   * response header: starting the response does not throw and leaves exactly
   * one value, the inner (later registered) middleware's id.
   */
  lemma TwoMiddlewaresWriteOneHeader(h: Headers, name: string, outerId: string, innerId: string)
    requires !ContainsKey(h, name)
    ensures var r := RunStartingCallbacks(h, [AddResponseHeaderIfAbsent(name, outerId), AddResponseHeaderIfAbsent(name, innerId)]);
            r.Success? && CountKey(r.value, name) == 1 && TryGetValue(r.value, name) == Some([innerId])
  {
    var cbs := [AddResponseHeaderIfAbsent(name, outerId), AddResponseHeaderIfAbsent(name, innerId)];
    assert SameName(name, name);
    assert LastCallbackFor(cbs, name) == Some(innerId);
    StartingCallbacksEffect(h, cbs, name);
  }

  /**
   * End to end, for any downstream and any callbacks registered before: the
   * first value of the request header is the id. If downstream returns
   * without registering further callbacks and without writing the response
   * header itself, starting the response writes that id on it exactly once.
   * The trace identifier downstream sees is the incoming one unless
   * `UpdateTraceIdentifier` is set.
   */
  lemma HeaderEchoedOnResponse(o: Options, p: Provider, next: Downstream, http: HttpState, b: Binding)
    requires o.requestHeader != "" && !o.ignoreRequestHeader && o.includeInResponse
    requires HasCorrelationIdHeader(http, o) && RequestHeaderValues(http, o)[0] != ""
    ensures var r := InvokeEffect(o, Some(p), next, http, b);
            |r.calls| >= 2 && r.calls[1].Next? &&
            (!o.updateTraceIdentifier ==> r.calls[1].view.http.traceIdentifier == http.traceIdentifier)
    ensures var r := InvokeEffect(o, Some(p), next, http, b);
            var value := RequestHeaderValues(http, o)[0];
            r.outcome == Returned && |r.calls| >= 2 && r.http.onStarting == r.calls[1].view.http.onStarting &&
            !ContainsKey(r.http.responseHeaders, o.responseHeader) ==>
              StartResponse(r.http).Success? &&
              CountKey(StartResponse(r.http).value.responseHeaders, o.responseHeader) == 1 &&
              TryGetValue(StartResponse(r.http).value.responseHeaders, o.responseHeader) == Some([value])
  {
    var value := RequestHeaderValues(http, o)[0];
    assert CorrelationIdOf(o, p, http) == Some(value);
    ContextLifecycle(o, p, next, http, b);
    var r := InvokeEffect(o, Some(p), next, http, b);
    if r.outcome == Returned && r.http.onStarting == r.calls[1].view.http.onStarting &&
       !ContainsKey(r.http.responseHeaders, o.responseHeader) {
      var cbs := r.http.onStarting;
      assert cbs == http.onStarting + [AddResponseHeaderIfAbsent(o.responseHeader, value)];
      assert SameName(o.responseHeader, o.responseHeader);
      assert cbs[..|cbs| - 1] == http.onStarting;
      assert LastCallbackFor(cbs, o.responseHeader) == Some(value);
      StartingCallbacksEffect(r.http.responseHeaders, cbs, o.responseHeader);
    }
  }

  /**
   * An outgoing request sent from downstream through the forwarding handler
   * (sharing the middleware's accessor) carries the request's id under the
   * request header name, unless it already has a header of that name.
   */
  lemma OutgoingRequestCarriesId(o: Options, p: Provider, next: Downstream, http: HttpState, b: Binding, outgoing: Headers)
    requires Proceeds(o, Some(p), http) && o.requestHeader != "" && b.Bound?
    requires !IsNullOrEmpty(CorrelationIdOf(o, p, http)) && !ContainsKey(outgoing, o.requestHeader)
    ensures var r := InvokeEffect(o, Some(p), next, http, b);
            |r.calls| >= 2 && r.calls[1].Next? &&
            ForwardHeaders(r.calls[1].view.ambient, outgoing) ==
              outgoing + [Header(o.requestHeader, [CorrelationIdOf(o, p, http).value])]
  {
    ContextLifecycle(o, p, next, http, b);
  }
}

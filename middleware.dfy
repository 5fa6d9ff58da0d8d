/**
 * The correlation id middleware: the per-request decision sequence (provider
 * check, header inspection, enforcement, id choice, trace identifier update,
 * context creation, deferred response header, downstream call, disposal).
 *
 * `InvokeEffect` states the whole sequence as a function of the options, the
 * provider, the downstream step, the request state and the accessor binding;
 * `CorrelationIdMiddleware.Invoke` performs it step by step on an `HttpContext`
 * and a `CorrelationContextFactory` and is proved to agree with it. The lemmas
 * after them state what the sequence guarantees.
 */
module Middleware {
  import opened Wrappers
  import opened Exceptions
  import opened HeaderCollection
  import opened CorrelationContexts
  import opened ContextFactory

  const BadRequest: int := 400

  const MissingProviderMessage: string :=
    "No 'ICorrelationIdProvider' has been registered. You must either add the correlation ID services" +
    " using the 'AddDefaultCorrelationId' extension method or you must register a suitable provider using the" +
    " 'ICorrelationIdBuilder'."

  /** The body of the enforcement response. */
  function HeaderRequiredBody(requestHeader: string): (body: string)
    ensures |body| > 5 + |requestHeader| && body[..5] == "The '" && body[5..5 + |requestHeader|] == requestHeader
  {
    "The '" + requestHeader + "' request header is required, but was not found."
  }

  /** What a provider can see of the request when asked for an id. */
  datatype RequestView = RequestView(requestHeaders: Headers, traceIdentifier: string)

  /** Text of the length of a GUID's default format (36 characters); the digits themselves are not constrained. */
  type GuidText = s: string | |s| == 36 witness "00000000-0000-0000-0000-000000000000"

  /**
   * `ICorrelationIdProvider`: the GUID provider (its random GUID is supplied as
   * data), the trace identifier provider, or any custom provider.
   */
  datatype Provider =
    | GuidProvider(guid: GuidText)
    | TraceIdProvider
    | CustomProvider(generate: RequestView -> NString)

  /** `GenerateCorrelationId` of each provider. */
  function ProviderGenerate(p: Provider, request: RequestView): (id: NString)
    ensures p.GuidProvider? ==> id == Some(p.guid) && |id.value| == 36
    ensures p.TraceIdProvider? ==> id == Some(request.traceIdentifier)
    ensures p.CustomProvider? ==> id == p.generate(request)
  {
    match p
    case GuidProvider(g) => Some(g)
    case TraceIdProvider => Some(request.traceIdentifier)
    case CustomProvider(f) => f(request)
  }

  /** The options the middleware reads. A null `CorrelationIdGenerator` is `None`. */
  datatype Options = Options(
    requestHeader: string,
    responseHeader: string,
    enforceHeader: bool,
    ignoreRequestHeader: bool,
    includeInResponse: bool,
    updateTraceIdentifier: bool,
    addToLoggingScope: bool,
    loggingScopeKey: NString,
    correlationIdGenerator: Option<() -> NString>)

  /** The callback registered with `Response.OnStarting`. */
  datatype StartingCallback = AddResponseHeaderIfAbsent(name: string, value: string)

  /** The parts of `HttpContext` the middleware reads or writes. */
  datatype HttpState = HttpState(
    requestHeaders: Headers,
    traceIdentifier: string,
    statusCode: int,
    body: string,
    responseHeaders: Headers,
    onStarting: seq<StartingCallback>)

  /**
   * What the downstream pipeline runs with: the request state, the context
   * visible through the accessor, and the logging scope entry (key, id) it runs
   * inside, if any.
   */
  datatype DownstreamView = DownstreamView(http: HttpState, ambient: Option<CorrelationContext>, loggingScope: Option<(string, string)>)

  /** The downstream pipeline either completes or throws, having changed the request state. */
  datatype DownstreamResult = Completed(http: HttpState) | Faulted(http: HttpState)

  /** `_next`, the rest of the pipeline, as one abstract step. */
  type Downstream = DownstreamView -> DownstreamResult

  /** The calls the middleware makes on its collaborators, in order. */
  datatype Call = Create(correlationId: NString, header: string) | Next(view: DownstreamView) | Dispose

  datatype Outcome = Returned | Threw(exception: Exception)

  datatype InvokeResult = InvokeResult(outcome: Outcome, http: HttpState, binding: Binding, calls: seq<Call>)

  /** The values sent under the request header; none when it is absent. */
  function RequestHeaderValues(http: HttpState, o: Options): StringValues {
    match TryGetValue(http.requestHeaders, o.requestHeader)
    case None => []
    case Some(v) => v
  }

  /**
   * The header counts as present when the key exists and its values are not
   * null-or-empty; a present header always has a first value.
   */
  function HasCorrelationIdHeader(http: HttpState, o: Options): (present: bool)
    ensures present ==> ContainsKey(http.requestHeaders, o.requestHeader) && |RequestHeaderValues(http, o)| >= 1
    ensures !ContainsKey(http.requestHeaders, o.requestHeader) ==> !present
  {
    TryGetValue(http.requestHeaders, o.requestHeader).Some? && !ValuesNullOrEmpty(RequestHeaderValues(http, o))
  }

  /**
   * Generation is needed unless the header was found with a usable value;
   * when it is not needed the values have a first element to take.
   */
  function RequiresGenerationOfCorrelationId(idInHeader: bool, idFromHeader: StringValues): (required: bool)
    ensures !idInHeader ==> required
    ensures |idFromHeader| == 0 ==> required
    ensures !required ==> idInHeader && |idFromHeader| >= 1 && (|idFromHeader| == 1 ==> idFromHeader[0] != "")
  {
    !idInHeader || ValuesNullOrEmpty(idFromHeader)
  }

  /** The generator function when one is configured, the provider otherwise. */
  function GenerateCorrelationId(o: Options, p: Provider, request: RequestView): (id: NString)
    ensures o.correlationIdGenerator.Some? ==> id == o.correlationIdGenerator.value()
    ensures o.correlationIdGenerator.None? && p.GuidProvider? ==> id.Some? && |id.value| == 36
    ensures o.correlationIdGenerator.None? && p.TraceIdProvider? ==> id == Some(request.traceIdentifier)
    ensures o.correlationIdGenerator.None? && p.CustomProvider? ==> id == p.generate(request)
  {
    if o.correlationIdGenerator.Some? then o.correlationIdGenerator.value() else ProviderGenerate(p, request)
  }

  /**
   * The id the middleware settles on: the first value of a present header
   * that is not ignored, and a generated one otherwise.
   */
  function CorrelationIdOf(o: Options, p: Provider, http: HttpState): (id: NString)
    ensures !o.ignoreRequestHeader && HasCorrelationIdHeader(http, o) ==> id == Some(RequestHeaderValues(http, o)[0])
    ensures o.ignoreRequestHeader || !HasCorrelationIdHeader(http, o) ==>
              id == GenerateCorrelationId(o, p, RequestView(http.requestHeaders, http.traceIdentifier))
  {
    var found := HasCorrelationIdHeader(http, o);
    var cid := RequestHeaderValues(http, o);
    if o.ignoreRequestHeader || RequiresGenerationOfCorrelationId(found, cid) then
      GenerateCorrelationId(o, p, RequestView(http.requestHeaders, http.traceIdentifier))
    else
      Some(cid[0])
  }

  /** The logging scope entry downstream runs inside, if scoping is enabled. */
  function LoggingScope(o: Options, id: NString): (scope: Option<(string, string)>)
    ensures scope.Some? <==> o.addToLoggingScope && !IsNullOrEmpty(o.loggingScopeKey) && !IsNullOrEmpty(id)
    ensures scope.Some? ==> scope.value == (o.loggingScopeKey.value, id.value) && scope.value.0 != "" && scope.value.1 != ""
  {
    if o.addToLoggingScope && !IsNullOrEmpty(o.loggingScopeKey) && !IsNullOrEmpty(id) then
      Some((o.loggingScopeKey.value, id.value))
    else None
  }

  /** Calls happen in the fixed order `Create`, `Next`, `Dispose`, each at most once. */
  predicate CallsInOrder(calls: seq<Call>) {
    forall i :: 0 <= i < |calls| ==>
      (calls[i].Create? <==> i == 0) && (calls[i].Next? <==> i == 1) && (calls[i].Dispose? <==> i == 2)
  }

  /** The whole decision sequence of one request. */
  function InvokeEffect(o: Options, provider: Option<Provider>, next: Downstream, http: HttpState, b: Binding): (r: InvokeResult)
    ensures |r.calls| <= 3 && CallsInOrder(r.calls)
    ensures r.calls == [] ==> r.binding == b
    ensures r.calls == [] && r.outcome == Returned ==> provider.Some? && r.http.statusCode == BadRequest
    ensures r.outcome == Returned && r.calls != [] ==> |r.calls| == 3 && Ambient(r.binding) == None
    ensures |r.calls| == 3 <==> r.outcome == Returned && r.calls != []
    ensures r.calls != [] ==> provider.Some? && r.calls[0] == Create(CorrelationIdOf(o, provider.value, http), o.requestHeader)
  {
    if provider.None? then
      InvokeResult(Threw(InvalidOperation(MissingProviderMessage)), http, b, [])
    else if !HasCorrelationIdHeader(http, o) && o.enforceHeader then
      InvokeResult(Returned, http.(statusCode := BadRequest, body := http.body + HeaderRequiredBody(o.requestHeader)), b, [])
    else
      var id := CorrelationIdOf(o, provider.value, http);
      var http1 := if !IsNullOrEmpty(id) && o.updateTraceIdentifier then http.(traceIdentifier := id.value) else http;
      var (created, b1) := CreateEffect(b, id, Some(o.requestHeader));
      if created.Failure? then
        InvokeResult(Threw(created.error), http1, b1, [Create(id, o.requestHeader)])
      else
        RunWithContext(o, next, id, http1, b1)
  }

  /**
   * The rest of the sequence once the context is bound: register the response
   * header callback, run downstream (inside the logging scope, if any), dispose.
   */
  function RunWithContext(o: Options, next: Downstream, id: NString, http1: HttpState, b1: Binding): (r: InvokeResult)
    ensures (|r.calls| == 2 || |r.calls| == 3) && CallsInOrder(r.calls)
    ensures r.calls[0] == Create(id, o.requestHeader) && r.calls[1].view.ambient == Ambient(b1)
    ensures r.calls[1].view.loggingScope == LoggingScope(o, id)
    ensures r.http == next(r.calls[1].view).http
    ensures r.outcome == Returned <==> |r.calls| == 3
    ensures r.outcome == Returned <==> next(r.calls[1].view).Completed?
    ensures r.outcome == Returned ==> Ambient(r.binding) == None
    ensures r.outcome != Returned ==> r.outcome == Threw(Downstream) && r.binding == b1
  {
    var http2 := if o.includeInResponse && !IsNullOrEmpty(id) then
                   http1.(onStarting := http1.onStarting + [AddResponseHeaderIfAbsent(o.responseHeader, id.value)])
                 else http1;
    var view := DownstreamView(http2, Ambient(b1), LoggingScope(o, id));
    match next(view)
    case Faulted(http3) => InvokeResult(Threw(Downstream), http3, b1, [Create(id, o.requestHeader), Next(view)])
    case Completed(http3) => InvokeResult(Returned, http3, DisposeEffect(b1), [Create(id, o.requestHeader), Next(view), Dispose])
  }

  /**
   * The registered callback: add the response header unless the response
   * already carries that name (the dictionary's `Add` would throw on a duplicate).
   */
  function RunCallback(h: Headers, cb: StartingCallback): (r: Result<Headers, Exception>)
    ensures r.Success?
    ensures ContainsKey(h, cb.name) ==> r.value == h
    ensures !ContainsKey(h, cb.name) ==> r.value == h + [Header(cb.name, [cb.value])]
  {
    if ContainsKey(h, cb.name) then Success(h) else AddUnique(h, cb.name, cb.value)
  }

  /**
   * Starting the response runs the `OnStarting` callbacks, the most recently
   * registered first, and stops at the first one that throws.
   */
  function RunStartingCallbacks(h: Headers, cbs: seq<StartingCallback>): (r: Result<Headers, Exception>)
    ensures r.Success?
    ensures |h| <= |r.value| <= |h| + |cbs| && r.value[..|h|] == h
    decreases |cbs|
  {
    if cbs == [] then Success(h)
    else
      match RunCallback(h, cbs[|cbs| - 1])
      case Failure(e) => Failure(e)
      case Success(h1) => RunStartingCallbacks(h1, cbs[..|cbs| - 1])
  }

  /** The response starts: the callbacks run and are consumed. */
  function StartResponse(s: HttpState): (r: Result<HttpState, Exception>)
    ensures r.Success?
    ensures r.value.onStarting == [] && r.value.(responseHeaders := s.responseHeaders, onStarting := s.onStarting) == s
    ensures |s.responseHeaders| <= |r.value.responseHeaders| && r.value.responseHeaders[..|s.responseHeaders|] == s.responseHeaders
  {
    match RunStartingCallbacks(s.responseHeaders, s.onStarting)
    case Failure(e) => Failure(e)
    case Success(h) => Success(s.(responseHeaders := h, onStarting := []))
  }

  class HttpContext {
    var requestHeaders: Headers
    var traceIdentifier: string
    var statusCode: int
    var body: string
    var responseHeaders: Headers
    var onStarting: seq<StartingCallback>

    constructor (s: HttpState)
      ensures State() == s
    {
      requestHeaders, traceIdentifier, statusCode := s.requestHeaders, s.traceIdentifier, s.statusCode;
      body, responseHeaders, onStarting := s.body, s.responseHeaders, s.onStarting;
    }

    function State(): HttpState
      reads this
    {
      HttpState(requestHeaders, traceIdentifier, statusCode, body, responseHeaders, onStarting)
    }

    /** Takes over the state the downstream pipeline left behind. */
    method Assign(s: HttpState)
      modifies this
      ensures State() == s
    {
      requestHeaders, traceIdentifier, statusCode := s.requestHeaders, s.traceIdentifier, s.statusCode;
      body, responseHeaders, onStarting := s.body, s.responseHeaders, s.onStarting;
    }
  }

  class CorrelationIdMiddleware {
    const next: Downstream
    const options: Options
    const provider: Option<Provider>

    constructor (next: Downstream, options: Options, provider: Option<Provider>)
      ensures this.next == next && this.options == options && this.provider == provider
    {
      this.next, this.options, this.provider := next, options, provider;
    }

    method Invoke(httpContext: HttpContext, factory: CorrelationContextFactory) returns (outcome: Outcome, calls: seq<Call>)
      modifies httpContext, factory.accessor
      ensures var r := InvokeEffect(options, provider, next, old(httpContext.State()), old(factory.Binding()));
              outcome == r.outcome && httpContext.State() == r.http && factory.Binding() == r.binding && calls == r.calls
    {
      ghost var http0, b0 := httpContext.State(), factory.Binding();
      if provider.None? {
        return Threw(InvalidOperation(MissingProviderMessage)), [];
      }

      var cid := RequestHeaderValues(httpContext.State(), options);
      var hasCorrelationIdHeader := HasCorrelationIdHeader(httpContext.State(), options);

      if !hasCorrelationIdHeader && options.enforceHeader {
        httpContext.statusCode := BadRequest;
        httpContext.body := httpContext.body + HeaderRequiredBody(options.requestHeader);
        return Returned, [];
      }

      var correlationId: NString := if hasCorrelationIdHeader then Some(cid[0]) else None;

      if options.ignoreRequestHeader || RequiresGenerationOfCorrelationId(hasCorrelationIdHeader, cid) {
        correlationId := GenerateCorrelationId(options, provider.value,
                                               RequestView(httpContext.requestHeaders, httpContext.traceIdentifier));
      }

      assert correlationId == CorrelationIdOf(options, provider.value, http0);

      if !IsNullOrEmpty(correlationId) && options.updateTraceIdentifier {
        httpContext.traceIdentifier := correlationId.value;
      }
      ghost var http1 := httpContext.State();

      calls := [Create(correlationId, options.requestHeader)];
      var created := factory.Create(correlationId, Some(options.requestHeader));
      assert (created, factory.Binding()) == CreateEffect(b0, correlationId, Some(options.requestHeader));
      if created.Failure? {
        return Threw(created.error), calls;
      }
      assert InvokeEffect(options, provider, next, http0, b0) == RunWithContext(options, next, correlationId, http1, factory.Binding());
      outcome, calls := RunDownstream(httpContext, factory, correlationId);
    }

    /** Lines after the context is created: response header callback, downstream call, disposal. */
    method RunDownstream(httpContext: HttpContext, factory: CorrelationContextFactory, correlationId: NString)
      returns (outcome: Outcome, calls: seq<Call>)
      modifies httpContext, factory.accessor
      ensures var r := RunWithContext(options, next, correlationId, old(httpContext.State()), old(factory.Binding()));
              outcome == r.outcome && httpContext.State() == r.http && factory.Binding() == r.binding && calls == r.calls
    {
      calls := [Create(correlationId, options.requestHeader)];
      if options.includeInResponse && !IsNullOrEmpty(correlationId) {
        httpContext.onStarting := httpContext.onStarting + [AddResponseHeaderIfAbsent(options.responseHeader, correlationId.value)];
      }

      var view := DownstreamView(httpContext.State(), Ambient(factory.Binding()), LoggingScope(options, correlationId));
      calls := calls + [Next(view)];
      var result := next(view);
      httpContext.Assign(result.http);
      if result.Faulted? {
        return Threw(Downstream), calls;
      }

      factory.Dispose();
      calls := calls + [Dispose];
      outcome := Returned;
    }
  }
}

# CorrelationId, modelled in Dafny

This project models the core of the CorrelationId library for ASP.NET Core.
The library gives each HTTP request a correlation id, makes it available to
the request's code, and sends it on to outgoing HTTP calls. The model covers:

- **The middleware** (`Middleware`, `MiddlewareProperties`). It rejects a
  pipeline with no provider. It reads the id from the configured request
  header, or enforces that header with a 400 response. Otherwise it generates
  an id with the generator function or the provider. It may overwrite the
  trace identifier. It then creates a correlation context, registers a
  response-header callback, runs the rest of the pipeline (optionally inside a
  logging scope), and disposes the context.
  - `InvokeEffect` states the whole sequence as a function.
  - `CorrelationIdMiddleware.Invoke` performs it step by step on an
    `HttpContext` object and a `CorrelationContextFactory`. Its contract says
    it agrees with `InvokeEffect`.
  - The lemmas in `MiddlewareProperties` state what the sequence guarantees.
- **The correlation context** (`CorrelationContexts`) and **its factory**
  (`ContextFactory`). The factory writes the created context into an optional
  accessor and clears the accessor on `Dispose`.
- **The outgoing handler** (`ForwardingHandler`). It adds the current id to an
  outgoing request unless the request already has that header.
- **Registration** (`Services`, `BuilderExtensions`,
  `ServiceCollectionExtensions`). The service collection is an ordered list of
  descriptors that the extension methods change in place. At most one
  provider may be registered. `AddCorrelationId` is idempotent.
- **The two logging dictionaries** (`DictionaryText`). They print
  `key:value` entries joined by `,`. An empty dictionary prints `[]` or `{}`.

Modelling choices:

- A C# `null` string is `None` in `NString = Option<string>`.
- An exception is the `Failure` or `Threw` arm of a result, so the error paths
  are part of every contract.
- Header names compare case-insensitively, because field names are
  case-insensitive (section 5.1 of RFC 9110). `HeaderCollection` folds ASCII
  letters.
- `StringValues` is a sequence of strings. It counts as null-or-empty when it
  has no value, or exactly one value that is empty.
- The downstream pipeline `_next` is a function parameter. It receives the
  request state, the context visible through the accessor, and the logging
  scope. It either completes or throws.
- `Response.OnStarting` callbacks are kept in the request state.
  `StartResponse` runs them the way ASP.NET Core does: the most recently
  registered callback runs first.
- The GUID the GUID provider would draw is a parameter of `GuidProvider`, a
  36-character text.

Two places where the code differs from what one might expect (the model
follows the code):

- A missing provider throws `InvalidOperationException` on every request,
  before the request is inspected. This happens even when a generator
  function is configured or the request carries the header.
- `Dispose` is not in a `finally` block, although the doc comment of `Invoke`
  (`src/CorrelationId/CorrelationIdMiddleware.cs:37-38`) says the context is
  disposed when the request is completing. When the rest of the pipeline throws,
  `Dispose` is skipped, and in the model's accessor cell the context stays
  bound (`DisposeOnlyOnCompletion`). In the source that value lives in the
  request's own async flow, so it is not visible outside `Invoke` (see
  "## Left out").

## Model

| member | source | states |
|---|---|---|
| HeaderCollection.Fold | src/CorrelationId/CorrelationIdMiddleware.cs:59 | ASCII lower-casing of a header name: same length, each letter A-Z moved to a-z, every other character kept. |
| HeaderCollection.SameName | src/CorrelationId/CorrelationIdMiddleware.cs:59 | The case-insensitive comparer of header names: equal names always match, and matching names have the same length. |
| HeaderCollection.ValuesNullOrEmpty | src/CorrelationId/CorrelationIdMiddleware.cs:60 | `StringValues.IsNullOrEmpty`: no values counts as null-or-empty, one value counts exactly when it is "", and two or more values never count, whatever they hold. |
| HeaderCollection.ContainsKey | src/CorrelationId/CorrelationIdMiddleware.cs:96 | The definition of header presence: some entry carries the name, compared case-insensitively. |
| HeaderCollection.TryGetValue | src/CorrelationId/CorrelationIdMiddleware.cs:59 | A value is found exactly when some entry carries the name (case-insensitively). It is the values of the first such entry. |
| HeaderCollection.CountKey | src/CorrelationId/HttpClient/CorrelationIdHandler.cs:22-24 | The number of entries under a name is zero exactly when the name is absent. |
| HeaderCollection.CountKeyAppend | src/CorrelationId/HttpClient/CorrelationIdHandler.cs:24 | Adding an entry raises the count of its own name by one and leaves every other name's count alone. |
| HeaderCollection.TryGetValueAppend | src/CorrelationId/CorrelationIdMiddleware.cs:96-99 | After an entry is added at the end, an earlier entry under the same name still wins the lookup. Otherwise the new entry's values are found. |
| HeaderCollection.AddUnique | src/CorrelationId/CorrelationIdMiddleware.cs:99 | The response header dictionary's `Add` fails exactly when the name is already present. Otherwise it appends the one value. |
| CorrelationContexts.IdOrDefault | src/CorrelationId/CorrelationContext.cs:24 | The `??=` defaulting: a non-null id is kept as given, and only null becomes the non-empty "Not set". |
| CorrelationContexts.NewCorrelationContext | src/CorrelationId/CorrelationContext.cs:22-31 | The constructor fails with `ArgumentException("A header must be provided.", "header")` exactly when the header is null or empty. On success it keeps the header, keeps a non-null id as given, and turns a null id into "Not set". |
| CorrelationContexts.ConstructFromProperties | src/CorrelationId/CorrelationContext.cs:29-30 | Constructing from a context's own id and header gives that same context back. |
| CorrelationContexts.EmptyIdIsKept | src/CorrelationId/CorrelationContext.cs:24 | Only null is defaulted: an empty id is kept as "". |
| ContextFactory.ContextAccessor.constructor | src/CorrelationId/CorrelationContextAccessor.cs:11-15 | The accessor is a settable context property; a new one holds no context. |
| ContextFactory.CorrelationContextFactory.constructor | src/CorrelationId/CorrelationContextFactory.cs:11-13 | The parameterless constructor leaves the factory without an accessor, so `Create` only returns the context and `Dispose` does nothing (`CreateEffect`, `DisposeEffect` on `NoAccessor`). |
| ContextFactory.CorrelationContextFactory.WithAccessor | src/CorrelationId/CorrelationContextFactory.cs:19-22 | The factory keeps the accessor it is given, null included. |
| ContextFactory.BindingOf | src/CorrelationId/CorrelationContextFactory.cs:29-33 | What a holder of a possibly null accessor sees: no accessor exactly when it is null, and otherwise the accessor's current context. |
| ContextFactory.CreateEffect | src/CorrelationId/CorrelationContextFactory.cs:25-35 | `Create` returns the constructor's result. On success with an accessor, the accessor holds the new context. A throw leaves the accessor unchanged. Without an accessor nothing is stored. |
| ContextFactory.DisposeEffect | src/CorrelationId/CorrelationContextFactory.cs:38-44 | After `Dispose` no context is visible. Whether there is an accessor does not change. |
| ContextFactory.CorrelationContextFactory.Create | src/CorrelationId/CorrelationContextFactory.cs:25-35 | The method's result and the accessor's new content are those of `CreateEffect` on the old accessor content. |
| ContextFactory.CorrelationContextFactory.Dispose | src/CorrelationId/CorrelationContextFactory.cs:38-44 | The accessor's new content is `DisposeEffect` of the old content. |
| ContextFactory.CreateThenDisposeClears | src/CorrelationId/CorrelationContextFactory.cs:25-44 | With a non-empty header, `Create` succeeds, and a following `Dispose` leaves the accessor present but empty. |
| ContextFactory.CreatedContextIsAmbient | src/CorrelationId/CorrelationContextFactory.cs:29-32 | The context `Create` returns is the one visible through the accessor afterwards. |
| Middleware.CorrelationIdMiddleware.Invoke | src/CorrelationId/CorrelationIdMiddleware.cs:45-124 | The outcome, the new request state, the accessor content and the sequence of calls on the factory and downstream are exactly those of `InvokeEffect` on the old state. |
| Middleware.CorrelationIdMiddleware.RunDownstream | src/CorrelationId/CorrelationIdMiddleware.cs:92-123 | After the context is created: callback registration, the downstream call and disposal behave as `RunWithContext` states. |
| Middleware.HttpContext.Assign | src/CorrelationId/CorrelationIdMiddleware.cs:113-119 | `_next` and the middleware share one `HttpContext`: whatever downstream wrote to it (headers, status, body, trace identifier, callbacks) is what the middleware sees afterwards. |
| Middleware.HeaderRequiredBody | src/CorrelationId/CorrelationIdMiddleware.cs:68 | The enforcement response text starts with "The '" followed by the request header name. |
| Middleware.CorrelationIdMiddleware.constructor | src/CorrelationId/CorrelationIdMiddleware.cs:27-34 | The middleware keeps its downstream step, its options and its provider, which may be absent. |
| Middleware.ProviderGenerate | src/CorrelationId/Providers/TraceIdCorrelationIdProvider.cs:12 | The GUID provider gives its 36-character GUID text, the trace identifier provider gives the request's trace identifier, and a custom provider gives what its function returns for the request. |
| Middleware.HasCorrelationIdHeader | src/CorrelationId/CorrelationIdMiddleware.cs:59-60 | The header counts as present only when the request carries the name with at least one value; an absent name is never present. |
| Middleware.RequiresGenerationOfCorrelationId | src/CorrelationId/CorrelationIdMiddleware.cs:126-129 | Generation is required when the header was not found or carried no value. When it is not required, the header was found with values that are not null-or-empty. |
| Middleware.GenerateCorrelationId | src/CorrelationId/CorrelationIdMiddleware.cs:131-145 | A configured generator function supplies the id and the provider is not asked. Otherwise the provider's id is used: the GUID text, the trace identifier, or the custom provider's result. |
| Middleware.CorrelationIdOf | src/CorrelationId/CorrelationIdMiddleware.cs:72-80 | A present header that is not ignored gives its first value. An ignored or absent header gives the generated id. |
| Middleware.LoggingScope | src/CorrelationId/CorrelationIdMiddleware.cs:104-110 | A scope exists exactly when scoping is on and both the key and the id are non-empty. It maps the key to the id. |
| Middleware.InvokeEffect | src/CorrelationId/CorrelationIdMiddleware.cs:45-124 | Calls happen in the order create, downstream, dispose, each at most once. No call means the binding is untouched, and a normal return without calls is the 400 response. A normal return after the context was created has made all three calls and left no context visible. The create call always carries the chosen id and the request header name. |
| Middleware.RunWithContext | src/CorrelationId/CorrelationIdMiddleware.cs:92-123 | Downstream runs after create and sees the context bound by create and the logging scope for the id. The final request state is what downstream returns. The call returns normally, with dispose as the third call, exactly when downstream completes; dispose then clears the context; a downstream throw is rethrown and leaves the context bound. |
| Middleware.RunCallback | src/CorrelationId/CorrelationIdMiddleware.cs:94-102 | The response callback never throws. It leaves a response that already has the header unchanged, and otherwise appends the header with the one id value. |
| Middleware.RunStartingCallbacks | src/CorrelationId/CorrelationIdMiddleware.cs:94-102 | Running all registered callbacks never throws. Existing response headers stay in front, unchanged, and at most one header per callback is added. |
| Middleware.StartResponse | src/CorrelationId/CorrelationIdMiddleware.cs:94-102 | Starting the response never throws. It consumes every callback and changes nothing but the response headers. Those only grow at the end. |
| MiddlewareProperties.MissingProviderThrows | src/CorrelationId/CorrelationIdMiddleware.cs:49-57 | With no provider, every request throws the fixed `InvalidOperationException`. Nothing is read, written, created or called. |
| MiddlewareProperties.HeaderPresence | src/CorrelationId/CorrelationIdMiddleware.cs:59-60 | The header counts as present exactly when the first entry under the request header name is not null-or-empty. Generation is required exactly when it is not present. |
| MiddlewareProperties.EmptyFirstOfSeveralValuesIsUsed | src/CorrelationId/CorrelationIdMiddleware.cs:59-72 | Whatever other headers the request carries, several values under the request header whose first is "" count as present. The id is then "" and nothing is generated. |
| MiddlewareProperties.EnforcementShortCircuits | src/CorrelationId/CorrelationIdMiddleware.cs:62-70 | An enforced, absent header yields status 400 and the fixed message naming the header, and nothing else: no context, no downstream call, no disposal. |
| MiddlewareProperties.HeaderValueIsUsed | src/CorrelationId/CorrelationIdMiddleware.cs:72-80 | A present header that is not ignored gives its first value as the id. Neither the generator nor the provider matters. |
| MiddlewareProperties.GeneratedWhenNeeded | src/CorrelationId/CorrelationIdMiddleware.cs:131-145 | When the header is absent or ignored, the generator function supplies the id if it is set. Only otherwise is the provider asked. |
| MiddlewareProperties.ProviderIds | src/CorrelationId/Providers/GuidCorrelationIdProvider.cs:11-14 | The GUID provider's id is the non-empty GUID text. The trace identifier provider's id is the trace identifier. |
| MiddlewareProperties.ContextLifecycle | src/CorrelationId/CorrelationIdMiddleware.cs:82-119 | See the breakdown below the table. |
| MiddlewareProperties.DisposeOnlyOnCompletion | src/CorrelationId/CorrelationIdMiddleware.cs:113-123 | Downstream runs once. `Dispose` follows, clearing the accessor, only when downstream completes. A downstream throw skips `Dispose` and leaves the context bound. |
| MiddlewareProperties.EmptyRequestHeaderNameThrows | src/CorrelationId/CorrelationIdMiddleware.cs:86-90 | An empty request header name makes `Create` throw `ArgumentException`. The trace identifier may already be updated, but the accessor is untouched and downstream never runs. |
| MiddlewareProperties.StartingCallbacksEffect | src/CorrelationId/CorrelationIdMiddleware.cs:94-102 | See the breakdown below the table. |
| MiddlewareProperties.TwoMiddlewaresWriteOneHeader | src/CorrelationId/CorrelationIdMiddleware.cs:94-102 | Two callbacks for the same header give one value, the later-registered one, and no exception. |
| MiddlewareProperties.HeaderEchoedOnResponse | src/CorrelationId/CorrelationIdMiddleware.cs:59-124 | End to end, for any downstream and any earlier callbacks, with a present header whose first value is non-empty: downstream sees the incoming trace identifier unless updating is on. If downstream returns without registering more callbacks or writing the response header itself, starting the response writes the incoming id on it exactly once. |
| MiddlewareProperties.OutgoingRequestCarriesId | src/CorrelationId/HttpClient/CorrelationIdHandler.cs:18-28 | Seen from downstream, an outgoing request through the handler gets the request's id under the request header name, unless it already has that header. |
| ForwardingHandler.ForwardHeaders | src/CorrelationId/HttpClient/CorrelationIdHandler.cs:20-25 | The old headers stay in front, unchanged, and at most one is added. One is added exactly when the context exists, its id is non-empty and its header is absent. Whenever the id is non-empty, the header is present afterwards. |
| ForwardingHandler.CorrelationIdHandler.constructor | src/CorrelationId/HttpClient/CorrelationIdHandler.cs:15 | The handler keeps the accessor it is given, null included, and its inner handler. |
| ForwardingHandler.CorrelationIdHandler.Current | src/CorrelationId/HttpClient/CorrelationIdHandler.cs:20 | The `?.` chain: no context without an accessor, otherwise the accessor's context, null included. |
| ForwardingHandler.CorrelationIdHandler.SendAsync | src/CorrelationId/HttpClient/CorrelationIdHandler.cs:18-28 | The outgoing headers become `ForwardHeaders` of the current context and the old headers. The inner handler receives the request exactly once, after that change. |
| ForwardingHandler.InnerHandler.SendAsync | src/CorrelationId/HttpClient/CorrelationIdHandler.cs:27 | The inner handler records the request it is passed. |
| ForwardingHandler.NoContextNoChange | src/CorrelationId/HttpClient/CorrelationIdHandler.cs:20-21 | No accessor, no context, or an empty id leaves the outgoing headers unchanged. |
| ForwardingHandler.ExistingHeaderWins | src/CorrelationId/HttpClient/CorrelationIdHandler.cs:22 | A header the request already carries under the context's name is neither overwritten nor duplicated. |
| ForwardingHandler.IdForwardedWhenAbsent | src/CorrelationId/HttpClient/CorrelationIdHandler.cs:21-24 | With a non-empty id and no such header, the id is added exactly once under the context's header name. Every other name keeps its count and values, and the old entries stay in front. |
| Services.HasService | src/CorrelationId/DependencyInjection/CorrelationIdBuilderExtensions.cs:48 | The definition of a registered service type: some descriptor in the list has that type. |
| Services.TryAdd | src/CorrelationId/DependencyInjection/CorrelationIdServiceCollectionExtensions.cs:25-26 | The old list stays in front and grows by at most one. It grows exactly when the type was not registered, and the type is registered afterwards. |
| Services.RemoveAllAppend | src/CorrelationId/DependencyInjection/CorrelationIdBuilderExtensions.cs:29 | Removal distributes over concatenation, so the kept descriptors stay in their original relative order, across types as well as within one. |
| Services.RemoveAll | src/CorrelationId/DependencyInjection/CorrelationIdBuilderExtensions.cs:29 | A descriptor is kept exactly when it was in the list and is of another type. The list does not grow, and no descriptor of the type is left. A list without that type is returned unchanged. |
| Services.OfType | src/CorrelationId/DependencyInjection/CorrelationIdBuilderExtensions.cs:48 | The descriptors of a service type are empty exactly when the type is not registered. They are exactly the list's descriptors of that type. |
| Services.OfTypeAppend | src/CorrelationId/DependencyInjection/CorrelationIdBuilderExtensions.cs:53 | Appending a descriptor adds it to its own type's descriptors only. |
| Services.TryAddEffect | src/CorrelationId/DependencyInjection/CorrelationIdServiceCollectionExtensions.cs:25-26 | `TryAdd` keeps the old list in front. It adds the descriptor exactly when its type had none, and every other type is untouched. |
| Services.TryAddIdempotent | src/CorrelationId/DependencyInjection/CorrelationIdServiceCollectionExtensions.cs:25-26 | Repeating a `TryAdd` changes nothing. |
| Services.RemoveAllEffect | src/CorrelationId/DependencyInjection/CorrelationIdBuilderExtensions.cs:29 | `RemoveAll` leaves no descriptor of the removed type. Every other type's descriptors stay exactly as they were, in order. |
| BuilderExtensions.RegisterProvider | src/CorrelationId/DependencyInjection/CorrelationIdBuilderExtensions.cs:48-53 | Registration fails exactly when a provider is registered, with `InvalidOperationException` carrying the given message. On success the provider descriptor is appended to the unchanged list. |
| BuilderExtensions.RegisterProviderEffect | src/CorrelationId/DependencyInjection/CorrelationIdBuilderExtensions.cs:48-53 | Registering fails with `InvalidOperationException` exactly when a provider is registered. Otherwise the list gains exactly the one provider descriptor, and other types are unchanged. |
| BuilderExtensions.ClearThenRegister | src/CorrelationId/DependencyInjection/CorrelationIdBuilderExtensions.cs:22-32 | After `ClearProvider`, registering a provider succeeds and leaves exactly that provider. |
| BuilderExtensions.ClearProvider | src/CorrelationId/DependencyInjection/CorrelationIdBuilderExtensions.cs:22-32 | A null builder throws `ArgumentNullException("builder")`. Otherwise every provider descriptor is removed and the same builder is returned. |
| BuilderExtensions.Register | src/CorrelationId/DependencyInjection/CorrelationIdBuilderExtensions.cs:48-55 | The duplicate check and `TryAddSingleton`: the list becomes `RegisterProvider`'s result, or stays unchanged when that throws. |
| BuilderExtensions.WithGuidProvider | src/CorrelationId/DependencyInjection/CorrelationIdBuilderExtensions.cs:41-56 | A null builder throws. A second provider throws with the "already been registered" message. Otherwise the GUID provider is registered as a singleton. |
| BuilderExtensions.WithTraceIdentifierProvider | src/CorrelationId/DependencyInjection/CorrelationIdBuilderExtensions.cs:65-80 | The same rule, with the "already been added" message and the trace identifier provider. |
| BuilderExtensions.WithCustomProvider | src/CorrelationId/DependencyInjection/CorrelationIdBuilderExtensions.cs:90-110 | A null builder, then a null provider, throws `ArgumentNullException`, before the duplicate check. Otherwise the instance is registered. |
| BuilderExtensions.WithCustomProviderOfType | src/CorrelationId/DependencyInjection/CorrelationIdBuilderExtensions.cs:120-135 | The same rule, registering the provider type. |
| ServiceCollectionExtensions.AddCorrelationIdEffect | src/CorrelationId/DependencyInjection/CorrelationIdServiceCollectionExtensions.cs:23-29 | Afterwards both the accessor and the factory are registered, and the list has grown by at most two. |
| ServiceCollectionExtensions.ConfigureEffect | src/CorrelationId/DependencyInjection/CorrelationIdServiceCollectionExtensions.cs:54 | `services.Configure` appends exactly one singleton options-callback descriptor for the callback and keeps the old list in front. |
| ServiceCollectionExtensions.AddDefaultEffect | src/CorrelationId/DependencyInjection/CorrelationIdServiceCollectionExtensions.cs:69-74 | A failure is the duplicate-provider `InvalidOperationException`. A success is the `AddCorrelationId` registrations followed by the GUID provider. |
| ServiceCollectionExtensions.AddCorrelationIdRegisters | src/CorrelationId/DependencyInjection/CorrelationIdServiceCollectionExtensions.cs:23-29 | See the breakdown below the table. |
| ServiceCollectionExtensions.AddCorrelationIdKeepsPrefix | src/CorrelationId/DependencyInjection/CorrelationIdServiceCollectionExtensions.cs:25-26 | The old registrations stay in front, unchanged. |
| ServiceCollectionExtensions.AddCorrelationIdIdempotent | src/CorrelationId/DependencyInjection/CorrelationIdServiceCollectionExtensions.cs:23-29 | A second `AddCorrelationId` changes nothing. |
| ServiceCollectionExtensions.AddCorrelationIdAnyTimes | src/CorrelationId/DependencyInjection/CorrelationIdServiceCollectionExtensions.cs:23-29 | Any number (at least one) of calls has the effect of one call. |
| ServiceCollectionExtensions.AddCorrelationId | src/CorrelationId/DependencyInjection/CorrelationIdServiceCollectionExtensions.cs:23-29 | The list becomes `AddCorrelationIdEffect` of the old list. A new builder over the same collection is returned. |
| ServiceCollectionExtensions.Configure | src/CorrelationId/DependencyInjection/CorrelationIdServiceCollectionExtensions.cs:54 | A null callback throws `ArgumentNullException("configureOptions")`. Otherwise one options-callback descriptor is appended. |
| ServiceCollectionExtensions.AddCorrelationIdConfigured | src/CorrelationId/DependencyInjection/CorrelationIdServiceCollectionExtensions.cs:42-57 | Null services, then a null callback, throws before anything is registered. Otherwise the callback is configured first, then the services are added. |
| ServiceCollectionExtensions.AddDefaultOnlyOnce | src/CorrelationId/DependencyInjection/CorrelationIdServiceCollectionExtensions.cs:69-74 | `AddDefaultCorrelationId` succeeds exactly when no provider was registered, and then leaves the GUID provider as the only one. A second call always throws `InvalidOperationException`. |
| ServiceCollectionExtensions.AddDefaultCorrelationId | src/CorrelationId/DependencyInjection/CorrelationIdServiceCollectionExtensions.cs:69-74 | The services are added, then the GUID provider. A duplicate provider throws after the services were added. Otherwise the same collection is returned. |
| ServiceCollectionExtensions.AddDefaultCorrelationIdConfigured | src/CorrelationId/DependencyInjection/CorrelationIdServiceCollectionExtensions.cs:87-94 | The default registration comes first. A null callback throws only after it, and a callback is appended after it. |
| DictionaryText.RenderAll | src/CorrelationId/FormatableDictionary.cs:17 | One `key:value` text per entry, in enumeration order. |
| DictionaryText.Join | src/CorrelationId/FormatableDictionary.cs:22 | `string.Join` of no items is "". Otherwise the text starts with the first item and ends with the last. |
| DictionaryText.FormatableToString | src/CorrelationId/FormatableDictionary.cs:15-24 | An empty dictionary prints `[]`. A single entry prints exactly `key:value`. |
| DictionaryText.FormattedToString | src/CorrelationId/FormattedDictionary.cs:15-19 | An empty dictionary prints `{}`. A single entry prints exactly `key:value`. |
| DictionaryText.FormatsAgreeExceptWhenEmpty | src/CorrelationId/FormattedDictionary.cs:18 | The two classes print the same text for every non-empty dictionary and differ for the empty one. |
| DictionaryText.JoinSeparatorCount | src/CorrelationId/FormatableDictionary.cs:22 | Joining n comma-free items puts exactly n − 1 commas in the text. |
| DictionaryText.SeparatorCount | src/CorrelationId/FormatableDictionary.cs:17-23 | A non-empty dictionary with comma-free keys and values prints exactly one comma fewer than it has entries. |
| DictionaryText.SplitJoin | src/CorrelationId/FormatableDictionary.cs:22 | Splitting at commas undoes the join of comma-free items: nothing is lost, merged or reordered. |
| DictionaryText.EntriesInOrder | src/CorrelationId/FormattedDictionary.cs:17-18 | The printed text splits back into the entries' `key:value` texts, in enumeration order. |

Breakdown of the longer rows:

- **MiddlewareProperties.ContextLifecycle.** Past the checks, with a valid
  header name, `Create(id, RequestHeader)` is called first, then downstream.
  - The trace identifier is replaced iff updating is on and the id is
    non-empty.
  - One response callback is registered iff inclusion is on and the id is
    non-empty.
  - Nothing else in the request state changes.
  - Downstream sees the new context, and runs in a logging scope iff scoping
    is on with a non-empty key and id.
- **MiddlewareProperties.StartingCallbacksEffect.** The response callbacks
  never throw.
  - A header already on the response is left as it was.
  - Otherwise the header is present exactly once, with the most recently
    registered callback's value, or absent if no callback names it.
- **ServiceCollectionExtensions.AddCorrelationIdRegisters.** Afterwards the
  accessor (singleton) and the factory (transient) are each registered.
  - An earlier registration of either is kept instead.
  - Every other service type is untouched.

## Left out

- Logging: the `Log.*` calls, event ids and log levels are not modelled. The logging scope is modelled only as the entry downstream runs inside.
- Asynchrony: `await`, tasks and cancellation tokens are left out. `Response.OnStarting` callbacks are kept and run in one step by `StartResponse`.
- The `AsyncLocal` flow of the accessor between concurrent requests is not modelled. The model has one accessor per request, and a new accessor holds no context. In the source the storage is one `static AsyncLocal` shared by every accessor instance (`src/CorrelationId/CorrelationContextAccessor.cs:8`), so a new accessor on a flow that already carries a context sees that context. A value set through it inside the `async` `Invoke` (`src/CorrelationId/CorrelationIdMiddleware.cs:45`, via `Create` at `:90`) belongs to that method's async flow: once `Invoke` returns or throws, its caller does not see it. The model's single cell does not capture this scoping, so a skipped `Dispose` leaves the context bound in the model but is not observable outside `Invoke` in the source.
- Randomness: `Guid.NewGuid` is a parameter of `GuidProvider`. One `GuidProvider` value therefore holds one GUID, and every `Invoke` that uses it generates that same id. The source draws a fresh GUID per request. Likewise `Options.correlationIdGenerator` is a pure function, so one `Options` value generates the same id on every request; the source's `Func<string>` may return a different id each time.
- Middleware.ProviderGenerate: a custom provider sees only the request headers and the trace identifier (`RequestView`), not the whole `HttpContext` it is passed at `src/CorrelationId/CorrelationIdMiddleware.cs:142`.
- `RequestHeader` and `ResponseHeader` are non-null strings. In the source a null name throws from the header lookup at `src/CorrelationId/CorrelationIdMiddleware.cs:59` or, inside the callback, at `src/CorrelationId/CorrelationIdMiddleware.cs:96`; those paths are not modelled.
- HeaderCollection.ValuesNullOrEmpty: a `StringValues` entry is never null. In the source a single null value also counts as null-or-empty; the model has no such value.
- The middleware constructor's null checks on `next`, `logger` and `options` are not modelled. The middleware always has a downstream step and options.
- Downstream code that writes the accessor itself is not modelled: the context `Dispose` clears is the one visible to downstream.
- `HttpHeaders.Add` validation of header names and values on outgoing requests is not modelled.
- Header names compare with ASCII case folding only. Full Unicode case folding is not modelled.
- `ServiceCollectionExtensions.Configure` stands for `services.Configure(configure)`. Only its one `IConfigureOptions` descriptor is modelled, not the options infrastructure that `AddOptions` registers.
- ServiceCollectionExtensions.AddCorrelationId: the model takes a non-null collection. A null collection makes the framework's `TryAdd` throw, and that path is not modelled.
- ServiceCollectionExtensions.AddDefaultCorrelationId: the model takes a non-null collection, for the same reason.
- ServiceCollectionExtensions.AddDefaultCorrelationIdConfigured: the model takes a non-null collection, for the same reason.
- Dependency-injection resolution is not modelled: building the provider, lifetimes taking effect, and constructing the factory and handler from the container.
- `HttpClientBuilderExtensions` and the rest of the wiring into the HTTP client factory are not part of this model.
- DictionaryText.FormatableToString: keys and values are taken as already converted to text, so `ToString` of arbitrary key and value types is not modelled.

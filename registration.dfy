/**
 * The builder methods that choose the correlation id provider: each checks its
 * arguments, refuses a second provider, and registers one provider descriptor.
 */
module BuilderExtensions {
  import opened Wrappers
  import opened Exceptions
  import opened Services

  const MultipleProviderExceptionMessage: string :=
    "A provider has already been registered. Only a single provider may be registered."

  /** The message the trace identifier and custom provider methods use instead. */
  const ProviderAlreadyAddedMessage: string := "A provider has already been added."

  function ProviderDescriptor(impl: Implementation): ServiceDescriptor {
    ServiceDescriptor(CorrelationIdProviderService, impl, Singleton)
  }

  /** The duplicate guard followed by `TryAddSingleton<ICorrelationIdProvider>`. */
  function RegisterProvider(s: Descriptors, impl: Implementation, duplicateMessage: string): (r: Result<Descriptors, Exception>)
    ensures r.Failure? <==> HasService(s, CorrelationIdProviderService)
    ensures r.Failure? ==> r.error == InvalidOperation(duplicateMessage)
    ensures r.Success? ==> r.value == s + [ProviderDescriptor(impl)]
  {
    if HasService(s, CorrelationIdProviderService) then Failure(InvalidOperation(duplicateMessage))
    else Success(TryAdd(s, ProviderDescriptor(impl)))
  }

  /**
   * Registration fails exactly when a provider is already registered. On
   * success the list holds exactly one provider descriptor, the requested one,
   * appended after the unchanged old list.
   */
  lemma RegisterProviderEffect(s: Descriptors, impl: Implementation, message: string, u: ServiceType)
    ensures var r := RegisterProvider(s, impl, message);
            (r.Failure? <==> HasService(s, CorrelationIdProviderService)) &&
            (r.Failure? ==> r.error == InvalidOperation(message)) &&
            (r.Success? ==> r.value == s + [ProviderDescriptor(impl)] &&
                            OfType(r.value, CorrelationIdProviderService) == [ProviderDescriptor(impl)] &&
                            (u != CorrelationIdProviderService ==> OfType(r.value, u) == OfType(s, u)))
  {
    if !HasService(s, CorrelationIdProviderService) {
      TryAddEffect(s, ProviderDescriptor(impl), CorrelationIdProviderService);
      TryAddEffect(s, ProviderDescriptor(impl), u);
    }
  }

  /**
   * After clearing, registering a provider never hits the duplicate error:
   * the list then holds exactly the new provider, and every other service
   * type's descriptors as before.
   */
  lemma ClearThenRegister(s: Descriptors, impl: Implementation, message: string, u: ServiceType)
    ensures var r := RegisterProvider(RemoveAll(s, CorrelationIdProviderService), impl, message);
            r.Success? &&
            OfType(r.value, CorrelationIdProviderService) == [ProviderDescriptor(impl)] &&
            (u != CorrelationIdProviderService ==> OfType(r.value, u) == OfType(s, u))
  {
    RemoveAllEffect(s, CorrelationIdProviderService, u);
    RegisterProviderEffect(RemoveAll(s, CorrelationIdProviderService), impl, message, u);
  }

  /** The frame of a method on a builder that may be null. */
  function ServicesOf(builder: CorrelationIdBuilder?): set<ServiceCollection> {
    if builder == null then {} else {builder.services}
  }

  method ClearProvider(builder: CorrelationIdBuilder?) returns (r: Result<CorrelationIdBuilder, Exception>)
    modifies ServicesOf(builder)
    ensures builder == null ==> r == Failure(ArgumentNull("builder"))
    ensures builder != null ==> r == Success(builder) &&
                                builder.services.descriptors == RemoveAll(old(builder.services.descriptors), CorrelationIdProviderService)
  {
    if builder == null {
      return Failure(ArgumentNull("builder"));
    }
    builder.services.descriptors := RemoveAll(builder.services.descriptors, CorrelationIdProviderService);
    return Success(builder);
  }

  /** The common body of the `With*Provider` methods once the arguments are checked. */
  method Register(builder: CorrelationIdBuilder, impl: Implementation, duplicateMessage: string)
    returns (r: Result<CorrelationIdBuilder, Exception>)
    modifies builder.services
    ensures var e := RegisterProvider(old(builder.services.descriptors), impl, duplicateMessage);
            (e.Failure? ==> r == Failure(e.error) && builder.services.descriptors == old(builder.services.descriptors)) &&
            (e.Success? ==> r == Success(builder) && builder.services.descriptors == e.value)
  {
    if HasService(builder.services.descriptors, CorrelationIdProviderService) {
      return Failure(InvalidOperation(duplicateMessage));
    }
    builder.services.descriptors := TryAdd(builder.services.descriptors, ProviderDescriptor(impl));
    return Success(builder);
  }

  method WithGuidProvider(builder: CorrelationIdBuilder?) returns (r: Result<CorrelationIdBuilder, Exception>)
    modifies ServicesOf(builder)
    ensures builder == null ==> r == Failure(ArgumentNull("builder"))
    ensures builder != null ==>
              var e := RegisterProvider(old(builder.services.descriptors), GuidProviderImpl, MultipleProviderExceptionMessage);
              (e.Failure? ==> r == Failure(e.error) && builder.services.descriptors == old(builder.services.descriptors)) &&
              (e.Success? ==> r == Success(builder) && builder.services.descriptors == e.value)
  {
    if builder == null {
      return Failure(ArgumentNull("builder"));
    }
    r := Register(builder, GuidProviderImpl, MultipleProviderExceptionMessage);
  }

  method WithTraceIdentifierProvider(builder: CorrelationIdBuilder?) returns (r: Result<CorrelationIdBuilder, Exception>)
    modifies ServicesOf(builder)
    ensures builder == null ==> r == Failure(ArgumentNull("builder"))
    ensures builder != null ==>
              var e := RegisterProvider(old(builder.services.descriptors), TraceIdProviderImpl, ProviderAlreadyAddedMessage);
              (e.Failure? ==> r == Failure(e.error) && builder.services.descriptors == old(builder.services.descriptors)) &&
              (e.Success? ==> r == Success(builder) && builder.services.descriptors == e.value)
  {
    if builder == null {
      return Failure(ArgumentNull("builder"));
    }
    r := Register(builder, TraceIdProviderImpl, ProviderAlreadyAddedMessage);
  }

  /** `WithCustomProvider(provider)`: a null provider is refused before the duplicate check. */
  method WithCustomProvider(builder: CorrelationIdBuilder?, provider: Option<nat>) returns (r: Result<CorrelationIdBuilder, Exception>)
    modifies ServicesOf(builder)
    ensures builder == null ==> r == Failure(ArgumentNull("builder"))
    ensures builder != null && provider.None? ==>
              r == Failure(ArgumentNull("provider")) && builder.services.descriptors == old(builder.services.descriptors)
    ensures builder != null && provider.Some? ==>
              var e := RegisterProvider(old(builder.services.descriptors), ProviderInstanceImpl(provider.value), ProviderAlreadyAddedMessage);
              (e.Failure? ==> r == Failure(e.error) && builder.services.descriptors == old(builder.services.descriptors)) &&
              (e.Success? ==> r == Success(builder) && builder.services.descriptors == e.value)
  {
    if builder == null {
      return Failure(ArgumentNull("builder"));
    }
    if provider.None? {
      return Failure(ArgumentNull("provider"));
    }
    r := Register(builder, ProviderInstanceImpl(provider.value), ProviderAlreadyAddedMessage);
  }

  /** `WithCustomProvider<T>()`: the provider class `T` is registered by type. */
  method WithCustomProviderOfType(builder: CorrelationIdBuilder?, typeName: string) returns (r: Result<CorrelationIdBuilder, Exception>)
    modifies ServicesOf(builder)
    ensures builder == null ==> r == Failure(ArgumentNull("builder"))
    ensures builder != null ==>
              var e := RegisterProvider(old(builder.services.descriptors), ProviderTypeImpl(typeName), ProviderAlreadyAddedMessage);
              (e.Failure? ==> r == Failure(e.error) && builder.services.descriptors == old(builder.services.descriptors)) &&
              (e.Success? ==> r == Success(builder) && builder.services.descriptors == e.value)
  {
    if builder == null {
      return Failure(ArgumentNull("builder"));
    }
    r := Register(builder, ProviderTypeImpl(typeName), ProviderAlreadyAddedMessage);
  }
}

/**
 * The service collection methods: register the accessor and the factory
 * (idempotently), optionally the options callback, and for the default set-up
 * the GUID provider.
 */
module ServiceCollectionExtensions {
  import opened Wrappers
  import opened Exceptions
  import opened Services
  import opened BuilderExtensions

  const AccessorDescriptor: ServiceDescriptor := ServiceDescriptor(CorrelationContextAccessorService, AccessorImpl, Singleton)

  const FactoryDescriptor: ServiceDescriptor := ServiceDescriptor(CorrelationContextFactoryService, FactoryImpl, Transient)

  /** What `AddCorrelationId` does to the list. */
  function AddCorrelationIdEffect(s: Descriptors): (r: Descriptors)
    ensures |s| <= |r| <= |s| + 2
    ensures HasService(r, CorrelationContextAccessorService) && HasService(r, CorrelationContextFactoryService)
  {
    TryAdd(TryAdd(s, AccessorDescriptor), FactoryDescriptor)
  }

  /** `AddCorrelationId` applied `n` times in a row. */
  function AddCorrelationIdTimes(s: Descriptors, n: nat): Descriptors
    decreases n
  {
    if n == 0 then s else AddCorrelationIdTimes(AddCorrelationIdEffect(s), n - 1)
  }

  /** What `services.Configure(configure)` adds: one options callback descriptor per call. */
  function ConfigureEffect(s: Descriptors, action: nat): (r: Descriptors)
    ensures |r| == |s| + 1 && r[..|s|] == s
    ensures r[|s|] == ServiceDescriptor(ConfigureOptionsService, ConfigureActionImpl(action), Singleton)
  {
    s + [ServiceDescriptor(ConfigureOptionsService, ConfigureActionImpl(action), Singleton)]
  }

  /**
   * After `AddCorrelationId` the accessor is registered (a singleton unless
   * one was registered before) and the factory likewise (transient), every
   * other service type is untouched, and the old list stays in front.
   */
  lemma AddCorrelationIdRegisters(s: Descriptors, u: ServiceType)
    ensures var r := AddCorrelationIdEffect(s);
            r[..|s|] == s &&
            OfType(r, CorrelationContextAccessorService) ==
              (if HasService(s, CorrelationContextAccessorService) then OfType(s, CorrelationContextAccessorService) else [AccessorDescriptor]) &&
            OfType(r, CorrelationContextFactoryService) ==
              (if HasService(s, CorrelationContextFactoryService) then OfType(s, CorrelationContextFactoryService) else [FactoryDescriptor]) &&
            (u != CorrelationContextAccessorService && u != CorrelationContextFactoryService ==> OfType(r, u) == OfType(s, u))
  {
    AccessorRegistered(s);
    FactoryRegistered(s);
    if u != CorrelationContextAccessorService && u != CorrelationContextFactoryService {
      OtherTypesUntouched(s, u);
    }
    AddCorrelationIdKeepsPrefix(s);
  }

  lemma AccessorRegistered(s: Descriptors)
    ensures OfType(AddCorrelationIdEffect(s), CorrelationContextAccessorService) ==
              (if HasService(s, CorrelationContextAccessorService) then OfType(s, CorrelationContextAccessorService) else [AccessorDescriptor])
  {
    var s1 := TryAdd(s, AccessorDescriptor);
    TryAddEffect(s, AccessorDescriptor, CorrelationContextAccessorService);
    TryAddEffect(s1, FactoryDescriptor, CorrelationContextAccessorService);
  }

  lemma FactoryRegistered(s: Descriptors)
    ensures OfType(AddCorrelationIdEffect(s), CorrelationContextFactoryService) ==
              (if HasService(s, CorrelationContextFactoryService) then OfType(s, CorrelationContextFactoryService) else [FactoryDescriptor])
  {
    var s1 := TryAdd(s, AccessorDescriptor);
    TryAddEffect(s, AccessorDescriptor, CorrelationContextFactoryService);
    assert HasService(s1, CorrelationContextFactoryService) == HasService(s, CorrelationContextFactoryService) by {
      assert |OfType(s1, CorrelationContextFactoryService)| == |OfType(s, CorrelationContextFactoryService)|;
    }
    TryAddEffect(s1, FactoryDescriptor, CorrelationContextFactoryService);
  }

  lemma OtherTypesUntouched(s: Descriptors, u: ServiceType)
    requires u != CorrelationContextAccessorService && u != CorrelationContextFactoryService
    ensures OfType(AddCorrelationIdEffect(s), u) == OfType(s, u)
  {
    var s1 := TryAdd(s, AccessorDescriptor);
    TryAddEffect(s, AccessorDescriptor, u);
    TryAddEffect(s1, FactoryDescriptor, u);
  }

  /** The registrations go after everything registered before. */
  lemma AddCorrelationIdKeepsPrefix(s: Descriptors)
    ensures AddCorrelationIdEffect(s)[..|s|] == s
  {
    var s1 := TryAdd(s, AccessorDescriptor);
    var t1: Descriptors := if HasService(s, CorrelationContextAccessorService) then [] else [AccessorDescriptor];
    var t2: Descriptors := if HasService(s1, CorrelationContextFactoryService) then [] else [FactoryDescriptor];
    assert s1 == s + t1;
    assert AddCorrelationIdEffect(s) == s + (t1 + t2);
  }

  /** Calling `AddCorrelationId` again changes nothing. */
  lemma AddCorrelationIdIdempotent(s: Descriptors)
    ensures AddCorrelationIdEffect(AddCorrelationIdEffect(s)) == AddCorrelationIdEffect(s)
  {
    var s1 := TryAdd(s, AccessorDescriptor);
    var s2 := TryAdd(s1, FactoryDescriptor);
    TryAddEffect(s, AccessorDescriptor, CorrelationContextAccessorService);
    TryAddEffect(s1, FactoryDescriptor, CorrelationContextAccessorService);
    TryAddEffect(s1, FactoryDescriptor, CorrelationContextFactoryService);
    assert HasService(s2, CorrelationContextAccessorService);
    assert HasService(s2, CorrelationContextFactoryService);
  }

  /** However often it is called, `AddCorrelationId` has the effect of one call. */
  lemma {:induction false} AddCorrelationIdAnyTimes(s: Descriptors, n: nat)
    requires n >= 1
    ensures AddCorrelationIdTimes(s, n) == AddCorrelationIdEffect(s)
    decreases n
  {
    if n > 1 {
      AddCorrelationIdIdempotent(s);
      AddCorrelationIdAnyTimes(AddCorrelationIdEffect(s), n - 1);
    }
  }

  /** `services.AddCorrelationId()`: registers and returns a new builder over the same collection. */
  method AddCorrelationId(services: ServiceCollection) returns (builder: CorrelationIdBuilder)
    modifies services
    ensures fresh(builder) && builder.services == services
    ensures services.descriptors == AddCorrelationIdEffect(old(services.descriptors))
  {
    services.descriptors := TryAdd(services.descriptors, AccessorDescriptor);
    services.descriptors := TryAdd(services.descriptors, FactoryDescriptor);
    builder := new CorrelationIdBuilder(services);
  }

  /** `services.Configure(configure)`: a null callback throws; otherwise its descriptor is added. */
  method Configure(services: ServiceCollection, configure: Option<nat>) returns (r: Result<(), Exception>)
    modifies services
    ensures configure.None? ==> r == Failure(ArgumentNull("configureOptions")) && services.descriptors == old(services.descriptors)
    ensures configure.Some? ==> r == Success(()) && services.descriptors == ConfigureEffect(old(services.descriptors), configure.value)
  {
    if configure.None? {
      return Failure(ArgumentNull("configureOptions"));
    }
    services.descriptors := ConfigureEffect(services.descriptors, configure.value);
    return Success(());
  }

  /** `AddCorrelationId(services, configure)`: both arguments are checked before anything is registered. */
  method AddCorrelationIdConfigured(services: ServiceCollection?, configure: Option<nat>) returns (r: Result<CorrelationIdBuilder, Exception>)
    modifies services
    ensures services == null ==> r == Failure(ArgumentNull("services"))
    ensures services != null && configure.None? ==>
              r == Failure(ArgumentNull("configure")) && services.descriptors == old(services.descriptors)
    ensures services != null && configure.Some? ==>
              r.Success? && fresh(r.value) && r.value.services == services &&
              services.descriptors == AddCorrelationIdEffect(ConfigureEffect(old(services.descriptors), configure.value))
  {
    if services == null {
      return Failure(ArgumentNull("services"));
    }
    if configure.None? {
      return Failure(ArgumentNull("configure"));
    }
    var _ := Configure(services, configure);
    var builder := AddCorrelationId(services);
    return Success(builder);
  }

  /** What `AddDefaultCorrelationId` does: the services, then the GUID provider (which may throw). */
  function AddDefaultEffect(s: Descriptors): (r: Result<Descriptors, Exception>)
    ensures r.Failure? ==> r.error == InvalidOperation(MultipleProviderExceptionMessage)
    ensures r.Success? ==> r.value == AddCorrelationIdEffect(s) + [ProviderDescriptor(GuidProviderImpl)]
  {
    RegisterProvider(AddCorrelationIdEffect(s), GuidProviderImpl, MultipleProviderExceptionMessage)
  }

  /**
   * `AddDefaultCorrelationId` registers the GUID provider as the one provider
   * when none was registered, and throws otherwise; once it has succeeded, a
   * second call always throws `InvalidOperationException`.
   */
  lemma AddDefaultOnlyOnce(s: Descriptors)
    ensures AddDefaultEffect(s).Success? <==> !HasService(s, CorrelationIdProviderService)
    ensures AddDefaultEffect(s).Success? ==>
              OfType(AddDefaultEffect(s).value, CorrelationIdProviderService) == [ProviderDescriptor(GuidProviderImpl)] &&
              AddDefaultEffect(AddDefaultEffect(s).value) == Failure(InvalidOperation(MultipleProviderExceptionMessage))
  {
    var s1 := AddCorrelationIdEffect(s);
    AddCorrelationIdRegisters(s, CorrelationIdProviderService);
    RegisterProviderEffect(s1, GuidProviderImpl, MultipleProviderExceptionMessage, CorrelationIdProviderService);
    if AddDefaultEffect(s).Success? {
      var s2 := AddDefaultEffect(s).value;
      AddCorrelationIdRegisters(s2, CorrelationIdProviderService);
      assert OfType(AddCorrelationIdEffect(s2), CorrelationIdProviderService) != [];
    }
  }

  /** `services.AddDefaultCorrelationId()`: returns the same collection. */
  method AddDefaultCorrelationId(services: ServiceCollection) returns (r: Result<ServiceCollection, Exception>)
    modifies services
    ensures var e := AddDefaultEffect(old(services.descriptors));
            (e.Failure? ==> r == Failure(e.error) && services.descriptors == AddCorrelationIdEffect(old(services.descriptors))) &&
            (e.Success? ==> r == Success(services) && services.descriptors == e.value)
  {
    var builder := AddCorrelationId(services);
    var withProvider := WithGuidProvider(builder);
    if withProvider.Failure? {
      return Failure(withProvider.error);
    }
    return Success(services);
  }

  /**
   * `services.AddDefaultCorrelationId(configure)`: the provider is registered
   * before the options callback is added; a null callback throws only after
   * that registration.
   */
  method AddDefaultCorrelationIdConfigured(services: ServiceCollection, configure: Option<nat>) returns (r: Result<ServiceCollection, Exception>)
    modifies services
    ensures var e := AddDefaultEffect(old(services.descriptors));
            (e.Failure? ==> r == Failure(e.error) && services.descriptors == AddCorrelationIdEffect(old(services.descriptors))) &&
            (e.Success? && configure.None? ==> r == Failure(ArgumentNull("configureOptions")) && services.descriptors == e.value) &&
            (e.Success? && configure.Some? ==> r == Success(services) && services.descriptors == ConfigureEffect(e.value, configure.value))
  {
    var added := AddDefaultCorrelationId(services);
    if added.Failure? {
      return added;
    }
    var configured := Configure(services, configure);
    if configured.Failure? {
      return Failure(configured.error);
    }
    return Success(services);
  }
}

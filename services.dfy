/**
 * The dependency-injection service list the registration methods change in
 * place: an ordered list of (service type, implementation, lifetime)
 * descriptors, with the two list operations they use, `TryAdd` (append unless
 * that service type is already registered) and `RemoveAll` (drop every
 * descriptor of one service type).
 */
module Services {

  datatype ServiceType =
    | CorrelationIdProviderService
    | CorrelationContextAccessorService
    | CorrelationContextFactoryService
      /** `IConfigureOptions<CorrelationIdOptions>`, added by `Configure`. */
    | ConfigureOptionsService
    | OtherService(name: string)

  datatype Implementation =
    | GuidProviderImpl
    | TraceIdProviderImpl
      /** A provider class registered by type (`WithCustomProvider<T>`). */
    | ProviderTypeImpl(typeName: string)
      /** A provider object registered as an instance, identified by a reference. */
    | ProviderInstanceImpl(instance: nat)
    | AccessorImpl
    | FactoryImpl
      /** The options callback passed to `Configure`, identified by a reference. */
    | ConfigureActionImpl(action: nat)
    | OtherImpl(name: string)

  datatype Lifetime = Singleton | Scoped | Transient

  datatype ServiceDescriptor = ServiceDescriptor(serviceType: ServiceType, implementation: Implementation, lifetime: Lifetime)

  type Descriptors = seq<ServiceDescriptor>

  /** `Any(x => x.ServiceType == t)`. */
  predicate HasService(s: Descriptors, t: ServiceType) {
    exists i :: 0 <= i < |s| && s[i].serviceType == t
  }

  /** The descriptors of one service type, in registration order. */
  function OfType(s: Descriptors, t: ServiceType): (r: Descriptors)
    ensures |r| == 0 <==> !HasService(s, t)
    ensures forall d :: d in r <==> d in s && d.serviceType == t
  {
    if s == [] then []
    else
      var rest := OfType(s[1..], t);
      assert HasService(s, t) <==> s[0].serviceType == t || HasService(s[1..], t) by {
        if HasService(s[1..], t) {
          var k :| 0 <= k < |s[1..]| && s[1..][k].serviceType == t;
          assert s[k + 1] == s[1..][k];
        }
        if HasService(s, t) && s[0].serviceType != t {
          var k :| 0 <= k < |s| && s[k].serviceType == t;
          assert k > 0 && s[1..][k - 1] == s[k];
        }
      }
      assert forall d :: d in s <==> d == s[0] || d in s[1..];
      (if s[0].serviceType == t then [s[0]] else []) + rest
  }

  lemma {:induction false} OfTypeAppend(s: Descriptors, d: ServiceDescriptor, t: ServiceType)
    ensures OfType(s + [d], t) == OfType(s, t) + (if d.serviceType == t then [d] else [])
    decreases |s|
  {
    if s == [] {
      assert OfType([d], t) == (if d.serviceType == t then [d] else []) + OfType([], t);
    } else {
      assert (s + [d])[1..] == s[1..] + [d];
      OfTypeAppend(s[1..], d, t);
    }
  }

  /** `TryAddSingleton` / `TryAddTransient`: append only when no descriptor has that service type. */
  function TryAdd(s: Descriptors, d: ServiceDescriptor): (r: Descriptors)
    ensures |s| <= |r| <= |s| + 1 && r[..|s|] == s
    ensures |r| == |s| + 1 <==> !HasService(s, d.serviceType)
    ensures HasService(r, d.serviceType)
  {
    if HasService(s, d.serviceType) then s
    else
      assert (s + [d])[|s|] == d;
      assert forall i :: 0 <= i < |s| ==> (s + [d])[i] == s[i];
      s + [d]
  }

  /**
   * After `TryAdd` the service type has at least one descriptor; the new one
   * is there only if the type had none, every other type is untouched, and
   * the old list stays in front.
   */
  lemma TryAddEffect(s: Descriptors, d: ServiceDescriptor, t: ServiceType)
    ensures var r := TryAdd(s, d);
            r[..|s|] == s &&
            OfType(r, t) == if t == d.serviceType && !HasService(s, t) then [d] else OfType(s, t)
  {
    if !HasService(s, d.serviceType) {
      OfTypeAppend(s, d, t);
    }
  }

  /** Adding what is already there changes nothing. */
  lemma TryAddIdempotent(s: Descriptors, d: ServiceDescriptor)
    ensures TryAdd(TryAdd(s, d), d) == TryAdd(s, d)
  {
    if !HasService(s, d.serviceType) {
      assert (s + [d])[|s|] == d;
    }
  }

  /** `RemoveAll<T>`: drop every descriptor of that service type. */
  function RemoveAll(s: Descriptors, t: ServiceType): (r: Descriptors)
    ensures |r| <= |s|
    ensures forall d :: d in r <==> d in s && d.serviceType != t
    ensures !HasService(r, t)
    ensures !HasService(s, t) ==> r == s
  {
    if s == [] then []
    else
      assert forall d :: d in s <==> d == s[0] || d in s[1..];
      if s[0].serviceType == t then RemoveAll(s[1..], t)
      else
        var rest := RemoveAll(s[1..], t);
        assert forall i :: 0 <= i < |rest| ==> rest[i] in rest;
        assert forall i :: 1 <= i < |[s[0]] + rest| ==> ([s[0]] + rest)[i] == rest[i - 1];
        [s[0]] + rest
  }

  /**
   * `RemoveAll` leaves no descriptor of the removed type and every other
   * type's descriptors exactly as they were, in order.
   */
  lemma {:induction false} RemoveAllEffect(s: Descriptors, t: ServiceType, u: ServiceType)
    ensures OfType(RemoveAll(s, t), t) == [] && !HasService(RemoveAll(s, t), t)
    ensures u != t ==> OfType(RemoveAll(s, t), u) == OfType(s, u)
    decreases |s|
  {
    if s != [] {
      RemoveAllEffect(s[1..], t, u);
      if s[0].serviceType != t {
        var r := [s[0]] + RemoveAll(s[1..], t);
        assert r[1..] == RemoveAll(s[1..], t);
        assert OfType(r, t) == OfType(r[1..], t);
        assert OfType(r, u) == (if s[0].serviceType == u then [s[0]] else []) + OfType(r[1..], u);
      }
    }
  }

  /**
   * `RemoveAll` works descriptor by descriptor: removing from a concatenation
   * removes from each part and keeps the parts in order, so every kept
   * descriptor stays in its original order relative to the others.
   */
  lemma {:induction false} RemoveAllAppend(a: Descriptors, b: Descriptors, t: ServiceType)
    ensures RemoveAll(a + b, t) == RemoveAll(a, t) + RemoveAll(b, t)
    decreases |a|
  {
    if a == [] {
      assert a + b == b;
    } else {
      assert (a + b)[0] == a[0];
      assert (a + b)[1..] == a[1..] + b;
      RemoveAllAppend(a[1..], b, t);
    }
  }

  /** `IServiceCollection`: the list of descriptors, changed in place. */
  class ServiceCollection {
    var descriptors: Descriptors

    constructor (descriptors: Descriptors)
      ensures this.descriptors == descriptors
    {
      this.descriptors := descriptors;
    }
  }

  /** `ICorrelationIdBuilder`: a handle on one service collection. */
  class CorrelationIdBuilder {
    const services: ServiceCollection

    constructor (services: ServiceCollection)
      ensures this.services == services
    {
      this.services := services;
    }
  }
}

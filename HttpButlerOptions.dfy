/**
 * The options object an application configures: which HTTP interfaces to serve and
 * with which implementation class, which JSON options each implementation uses, and
 * the default JSON options; and the registration of all that into a service collection.
 */
module HttpButlerOptions {
  import opened Wrappers
  import opened JsonOptionsResolver

  /** A .NET type, by namespace ("" for the global namespace) and simple name. */
  datatype ClrType = ClrType(namespace: string, name: string)

  /** `Type.FullName` of a non-nested, non-generic type. */
  function FullName(t: ClrType): string
  {
    if t.namespace == "" then t.name else t.namespace + "." + t.name
  }

  /** `Assembly.GetType(fullName)` over the types of an assembly: the first with that full name, or null. */
  function GetType(assemblyTypes: seq<ClrType>, fullName: string): (r: Option<ClrType>)
    ensures r.Some? ==> r.value in assemblyTypes && FullName(r.value) == fullName
    ensures r.None? ==> forall t :: t in assemblyTypes ==> FullName(t) != fullName
  {
    if assemblyTypes == [] then None
    else if FullName(assemblyTypes[0]) == fullName then Some(assemblyTypes[0])
    else GetType(assemblyTypes[1..], fullName)
  }

  /** The name the generator gives an interface's implementation: `{Namespace}.gHttpButler_{Name}`. */
  function GeneratedImplName(iface: ClrType): string
  {
    iface.namespace + ".gHttpButler_" + iface.name
  }

  /** The key of an interface's JSON options: the implementation's simple name, `gHttpButler_{Name}`. */
  function JsonOptionsKey(iface: ClrType): string
  {
    "gHttpButler_" + iface.name
  }

  /** `Dictionary.Add` with a key that is already present throws an ArgumentException. */
  datatype OptionsError = DuplicateJsonOptionsKey(key: string)

  // The service collection, as far as Register uses it.

  datatype Lifetime = Singleton | Scoped

  datatype Implementation =
    | ResolverInstance(resolver: JsonOptionsResolver)  // AddSingleton with an instance
    | ImplementationType(implType: ClrType)            // AddScoped with an implementation type

  datatype ServiceDescriptor = ServiceDescriptor(serviceType: ClrType, lifetime: Lifetime, implementation: Implementation)

  /** A service collection: descriptors in the order they were added. */
  class ServiceCollection {
    var descriptors: seq<ServiceDescriptor>

    constructor(initial: seq<ServiceDescriptor>)
      ensures descriptors == initial
    {
      descriptors := initial;
    }

    method Add(d: ServiceDescriptor)
      modifies this
      ensures descriptors == old(descriptors) + [d]
    {
      descriptors := descriptors + [d];
    }

    /** `if (!constainsService(d.ServiceType)) services.Add(d)`. */
    method AddUnlessPresent(d: ServiceDescriptor)
      modifies this
      ensures descriptors == AddIfAbsent(old(descriptors), d)
    {
      if !ContainsService(descriptors, d.serviceType) {
        Add(d);
      }
    }
  }

  const IJsonOptionsResolverType := ClrType("HttpButler.Services", "IJsonOptionsResolver")
  const IPathResolveServiceType := ClrType("HttpButler.Services", "IPathResolveService")
  const PathResolveServiceType := ClrType("HttpButler.Services", "PathResolveService")
  const IHttpClientServiceType := ClrType("HttpButler.Services", "IHttpClientService")
  const HttpClientServiceType := ClrType("HttpButler.Services", "HttpClientService")

  /** `services.Where(x => x.ServiceType == serviceType).Any()`. */
  predicate ContainsService(ds: seq<ServiceDescriptor>, serviceType: ClrType)
  {
    exists i :: 0 <= i < |ds| && ds[i].serviceType == serviceType
  }

  /** Adds `d` unless a descriptor for its service type is already present. */
  function AddIfAbsent(ds: seq<ServiceDescriptor>, d: ServiceDescriptor): (r: seq<ServiceDescriptor>)
    ensures ContainsService(r, d.serviceType)
  {
    if ContainsService(ds, d.serviceType) then ds
    else
      assert (ds + [d])[|ds|] == d;
      ds + [d]
  }

  /** Register stops with an ArgumentNullException when an interface it adds has no implementation. */
  datatype RegisterError = NullImplementation(iface: ClrType)

  /** The descriptors after a Register call, and the exception that ended it, if any. */
  datatype RegisterOutcome = RegisterOutcome(descriptors: seq<ServiceDescriptor>, error: Option<RegisterError>)

  /** The three framework services, each added only if absent. */
  function RegisterFramework(ds: seq<ServiceDescriptor>, resolver: JsonOptionsResolver): seq<ServiceDescriptor>
  {
    var ds1 := AddIfAbsent(ds, ServiceDescriptor(IJsonOptionsResolverType, Singleton, ResolverInstance(resolver)));
    var ds2 := AddIfAbsent(ds1, ServiceDescriptor(IPathResolveServiceType, Scoped, ImplementationType(PathResolveServiceType)));
    AddIfAbsent(ds2, ServiceDescriptor(IHttpClientServiceType, Scoped, ImplementationType(HttpClientServiceType)))
  }

  /** One pass of the interface loop: skip a present service, fail on a null implementation, else add it scoped. */
  function RegisterInterface(ds: seq<ServiceDescriptor>, iface: ClrType, impl: Option<ClrType>): RegisterOutcome
  {
    if ContainsService(ds, iface) then RegisterOutcome(ds, None)
    else if impl.None? then RegisterOutcome(ds, Some(NullImplementation(iface)))
    else RegisterOutcome(ds + [ServiceDescriptor(iface, Scoped, ImplementationType(impl.value))], None)
  }

  /** The interface loop over the first `n` interfaces, stopping at the first exception. */
  function RegisterInterfaces(ds: seq<ServiceDescriptor>, ifaces: seq<ClrType>, impls: map<ClrType, Option<ClrType>>, n: nat): RegisterOutcome
    requires n <= |ifaces| && forall t :: t in ifaces ==> t in impls
  {
    if n == 0 then RegisterOutcome(ds, None)
    else
      var before := RegisterInterfaces(ds, ifaces, impls, n - 1);
      if before.error.Some? then before
      else RegisterInterface(before.descriptors, ifaces[n - 1], impls[ifaces[n - 1]])
  }

  /** The options object. The interface dictionary is kept as its keys in insertion order plus the map. */
  class HttpButlerOptions {
    var interfaces: seq<ClrType>
    var implementations: map<ClrType, Option<ClrType>>
    var jsonOptions: map<string, JsonOptions>
    var defaultJsonOptions: JsonOptions

    /** Each interface is listed once, and exactly the listed interfaces have an implementation entry. */
    ghost predicate Valid()
      reads this
    {
      && (forall i, j :: 0 <= i < j < |interfaces| ==> interfaces[i] != interfaces[j])
      && (forall t :: t in implementations <==> t in interfaces)
    }

    /** Empty dictionaries, and as default a new options object `created`. */
    constructor(created: nat)
      ensures Valid()
      ensures interfaces == [] && implementations == map[] && jsonOptions == map[]
      ensures defaultJsonOptions == Created(created)
    {
      interfaces := [];
      implementations := map[];
      jsonOptions := map[];
      defaultJsonOptions := Created(created);
    }

    /**
     * AddHttpInterface(iface, impl, jsonOptions). The first registration of an
     * interface wins; without an implementation it is looked up in the interface's
     * assembly (`assemblyTypes`) by its generated name. JSON options, when given,
     * are then added under the implementation's key, which fails on a duplicate key
     * after the interface has been recorded.
     */
    method AddHttpInterface(iface: ClrType, impl: Option<ClrType>, ifaceJsonOptions: Option<JsonOptions>,
                            assemblyTypes: seq<ClrType>)
      returns (r: Result<HttpButlerOptions, OptionsError>)
      requires Valid()
      modifies this
      ensures Valid()
      ensures iface in old(implementations) ==>
                interfaces == old(interfaces) && implementations == old(implementations)
      ensures iface !in old(implementations) ==>
                && interfaces == old(interfaces) + [iface]
                && implementations == old(implementations)[iface :=
                     if impl.Some? then impl else GetType(assemblyTypes, GeneratedImplName(iface))]
      ensures ifaceJsonOptions.None? ==> jsonOptions == old(jsonOptions) && r == Ok(this)
      ensures ifaceJsonOptions.Some? && JsonOptionsKey(iface) in old(jsonOptions) ==>
                jsonOptions == old(jsonOptions) && r == Err(DuplicateJsonOptionsKey(JsonOptionsKey(iface)))
      ensures ifaceJsonOptions.Some? && JsonOptionsKey(iface) !in old(jsonOptions) ==>
                jsonOptions == old(jsonOptions)[JsonOptionsKey(iface) := ifaceJsonOptions.value] && r == Ok(this)
      ensures defaultJsonOptions == old(defaultJsonOptions)
    {
      if iface !in implementations {
        var found := if impl.Some? then impl else GetType(assemblyTypes, GeneratedImplName(iface));
        implementations := implementations[iface := found];
        interfaces := interfaces + [iface];
      }
      if ifaceJsonOptions.Some? {
        r := AddInterfaceJsonOptions(iface, ifaceJsonOptions.value);
      } else {
        r := Ok(this);
      }
    }

    /** Replaces the default JSON options and changes nothing else. */
    method AddDefaultJsonOptions(options: JsonOptions) returns (self: HttpButlerOptions)
      modifies this
      ensures self == this && defaultJsonOptions == options
      ensures interfaces == old(interfaces) && implementations == old(implementations)
      ensures jsonOptions == old(jsonOptions)
    {
      defaultJsonOptions := options;
      self := this;
    }

    /** Adds the JSON options of an interface's implementation; a key already present fails. */
    method AddInterfaceJsonOptions(iface: ClrType, options: JsonOptions) returns (r: Result<HttpButlerOptions, OptionsError>)
      modifies this
      ensures interfaces == old(interfaces) && implementations == old(implementations)
      ensures defaultJsonOptions == old(defaultJsonOptions)
      ensures JsonOptionsKey(iface) in old(jsonOptions) ==>
                jsonOptions == old(jsonOptions) && r == Err(DuplicateJsonOptionsKey(JsonOptionsKey(iface)))
      ensures JsonOptionsKey(iface) !in old(jsonOptions) ==>
                jsonOptions == old(jsonOptions)[JsonOptionsKey(iface) := options] && r == Ok(this)
    {
      var implTypeName := JsonOptionsKey(iface);
      if implTypeName in jsonOptions {
        r := Err(DuplicateJsonOptionsKey(implTypeName));
      } else {
        jsonOptions := jsonOptions[implTypeName := options];
        r := Ok(this);
      }
    }

    /** The resolver Register hands to the service collection. */
    function Resolver(): JsonOptionsResolver
      reads this
    {
      CreateWithBoth(defaultJsonOptions, jsonOptions)
    }

    /**
     * Register: the framework services, then every interface in insertion order, each
     * only when no descriptor for its service type is present yet. A null
     * implementation stops the loop with what has been added so far.
     */
    method Register(services: ServiceCollection) returns (error: Option<RegisterError>)
      requires Valid()
      modifies services
      ensures var outcome := RegisterInterfaces(RegisterFramework(old(services.descriptors), Resolver()),
                                                interfaces, implementations, |interfaces|);
              services.descriptors == outcome.descriptors && error == outcome.error
    {
      var ifaces := interfaces;
      var impls := implementations;
      assert forall t :: t in ifaces ==> t in impls;
      ghost var initial := services.descriptors;
      var resolver := Resolver();
      services.AddUnlessPresent(ServiceDescriptor(IJsonOptionsResolverType, Singleton, ResolverInstance(resolver)));
      services.AddUnlessPresent(ServiceDescriptor(IPathResolveServiceType, Scoped, ImplementationType(PathResolveServiceType)));
      services.AddUnlessPresent(ServiceDescriptor(IHttpClientServiceType, Scoped, ImplementationType(HttpClientServiceType)));
      assert services.descriptors == RegisterFramework(initial, resolver);
      error := AddInterfaces(services, ifaces, impls);
    }
  }

  /**
   * The interface loop of Register: each interface, in order, is added scoped unless a
   * descriptor for it is present; a null implementation stops the loop with its error.
   */
  method AddInterfaces(services: ServiceCollection, ifaces: seq<ClrType>, impls: map<ClrType, Option<ClrType>>)
    returns (error: Option<RegisterError>)
    requires forall t :: t in ifaces ==> t in impls
    modifies services
    ensures services.descriptors == RegisterInterfaces(old(services.descriptors), ifaces, impls, |ifaces|).descriptors
    ensures error == RegisterInterfaces(old(services.descriptors), ifaces, impls, |ifaces|).error
  {
    ghost var start := services.descriptors;
    error := None;
    var i := 0;
    while i < |ifaces|
      invariant 0 <= i <= |ifaces|
      invariant RegisterInterfaces(start, ifaces, impls, i) == RegisterOutcome(services.descriptors, None)
    {
      var iface := ifaces[i];
      var impl := impls[iface];
      assert RegisterInterfaces(start, ifaces, impls, i + 1) == RegisterInterface(services.descriptors, iface, impl) by {
        RegisterStep(start, ifaces, impls, i, services.descriptors);
      }
      if !ContainsService(services.descriptors, iface) {
        if impl.None? {
          error := Some(NullImplementation(iface));
          RegisterErrorSticks(start, ifaces, impls, i + 1, |ifaces|);
          return;
        }
        services.Add(ServiceDescriptor(iface, Scoped, ImplementationType(impl.value)));
      }
      i := i + 1;
    }
  }

  // Properties of Register.

  /** One more pass of the loop, from a state the first n passes reached without error. */
  lemma RegisterStep(ds: seq<ServiceDescriptor>, ifaces: seq<ClrType>,
                     impls: map<ClrType, Option<ClrType>>, n: nat, current: seq<ServiceDescriptor>)
    requires n < |ifaces| && forall t :: t in ifaces ==> t in impls
    requires RegisterInterfaces(ds, ifaces, impls, n) == RegisterOutcome(current, None)
    ensures RegisterInterfaces(ds, ifaces, impls, n + 1) == RegisterInterface(current, ifaces[n], impls[ifaces[n]])
  {
  }

  /** Once the loop has failed, later interfaces change nothing. */
  lemma {:induction false} RegisterErrorSticks(ds: seq<ServiceDescriptor>, ifaces: seq<ClrType>,
                                               impls: map<ClrType, Option<ClrType>>, n: nat, m: nat)
    requires n <= m <= |ifaces| && forall t :: t in ifaces ==> t in impls
    requires RegisterInterfaces(ds, ifaces, impls, n).error.Some?
    ensures RegisterInterfaces(ds, ifaces, impls, m) == RegisterInterfaces(ds, ifaces, impls, n)
    decreases m - n
  {
    if m > n {
      RegisterErrorSticks(ds, ifaces, impls, n, m - 1);
    }
  }

  /** Register only appends: the descriptors present before are a prefix of those after. */
  lemma {:induction false} RegisterInterfacesAppends(ds: seq<ServiceDescriptor>, ifaces: seq<ClrType>,
                                                     impls: map<ClrType, Option<ClrType>>, n: nat)
    requires n <= |ifaces| && forall t :: t in ifaces ==> t in impls
    ensures ds <= RegisterInterfaces(ds, ifaces, impls, n).descriptors
  {
    if n > 0 {
      RegisterInterfacesAppends(ds, ifaces, impls, n - 1);
    }
  }

  /** Every descriptor type occurs once. */
  predicate DistinctServiceTypes(ds: seq<ServiceDescriptor>)
  {
    forall i, j :: 0 <= i < j < |ds| ==> ds[i].serviceType != ds[j].serviceType
  }

  lemma AddIfAbsentKeepsDistinct(ds: seq<ServiceDescriptor>, d: ServiceDescriptor)
    requires DistinctServiceTypes(ds)
    ensures DistinctServiceTypes(AddIfAbsent(ds, d))
  {
    if !ContainsService(ds, d.serviceType) {
      var r := ds + [d];
      forall i, j | 0 <= i < j < |r| ensures r[i].serviceType != r[j].serviceType {
        if j == |ds| {
          assert r[i] == ds[i];
        }
      }
    }
  }

  /** Because each addition is checked first, Register never creates a second descriptor for a service type. */
  lemma {:induction false} RegisterKeepsDistinct(ds: seq<ServiceDescriptor>, resolver: JsonOptionsResolver,
                                                 ifaces: seq<ClrType>, impls: map<ClrType, Option<ClrType>>, n: nat)
    requires n <= |ifaces| && forall t :: t in ifaces ==> t in impls
    requires DistinctServiceTypes(ds)
    ensures DistinctServiceTypes(RegisterFramework(ds, resolver))
    ensures DistinctServiceTypes(RegisterInterfaces(RegisterFramework(ds, resolver), ifaces, impls, n).descriptors)
  {
    var ds1 := AddIfAbsent(ds, ServiceDescriptor(IJsonOptionsResolverType, Singleton, ResolverInstance(resolver)));
    var ds2 := AddIfAbsent(ds1, ServiceDescriptor(IPathResolveServiceType, Scoped, ImplementationType(PathResolveServiceType)));
    AddIfAbsentKeepsDistinct(ds, ServiceDescriptor(IJsonOptionsResolverType, Singleton, ResolverInstance(resolver)));
    AddIfAbsentKeepsDistinct(ds1, ServiceDescriptor(IPathResolveServiceType, Scoped, ImplementationType(PathResolveServiceType)));
    AddIfAbsentKeepsDistinct(ds2, ServiceDescriptor(IHttpClientServiceType, Scoped, ImplementationType(HttpClientServiceType)));
    InterfacesKeepDistinct(RegisterFramework(ds, resolver), ifaces, impls, n);
  }

  lemma {:induction false} InterfacesKeepDistinct(ds: seq<ServiceDescriptor>, ifaces: seq<ClrType>,
                                                  impls: map<ClrType, Option<ClrType>>, n: nat)
    requires n <= |ifaces| && forall t :: t in ifaces ==> t in impls
    requires DistinctServiceTypes(ds)
    ensures DistinctServiceTypes(RegisterInterfaces(ds, ifaces, impls, n).descriptors)
  {
    if n > 0 {
      InterfacesKeepDistinct(ds, ifaces, impls, n - 1);
      var before := RegisterInterfaces(ds, ifaces, impls, n - 1);
      var impl := impls[ifaces[n - 1]];
      if before.error.None? && !ContainsService(before.descriptors, ifaces[n - 1]) && impl.Some? {
        AddIfAbsentKeepsDistinct(before.descriptors, ServiceDescriptor(ifaces[n - 1], Scoped, ImplementationType(impl.value)));
      }
    }
  }

  /** After a Register that did not fail, the framework services and every configured interface are present. */
  lemma {:induction false} RegisterCovers(ds: seq<ServiceDescriptor>, ifaces: seq<ClrType>,
                                          impls: map<ClrType, Option<ClrType>>, n: nat)
    requires n <= |ifaces| && forall t :: t in ifaces ==> t in impls
    ensures var out := RegisterInterfaces(ds, ifaces, impls, n);
            out.error.None? ==> forall k :: 0 <= k < n ==> ContainsService(out.descriptors, ifaces[k])
  {
    if n > 0 {
      RegisterCovers(ds, ifaces, impls, n - 1);
      var before := RegisterInterfaces(ds, ifaces, impls, n - 1);
      var out := RegisterInterfaces(ds, ifaces, impls, n);
      if out.error.None? {
        assert before.error.None?;
        assert before.descriptors <= out.descriptors;
        forall k | 0 <= k < n ensures ContainsService(out.descriptors, ifaces[k]) {
          if k < n - 1 {
            var i :| 0 <= i < |before.descriptors| && before.descriptors[i].serviceType == ifaces[k];
            assert out.descriptors[i] == before.descriptors[i];
          } else if !ContainsService(before.descriptors, ifaces[k]) {
            assert out.descriptors[|before.descriptors|].serviceType == ifaces[k];
          }
        }
      }
    }
  }

  /** The framework services are present after Register's first three steps. */
  lemma RegisterFrameworkCovers(ds: seq<ServiceDescriptor>, resolver: JsonOptionsResolver)
    ensures ContainsService(RegisterFramework(ds, resolver), IJsonOptionsResolverType)
    ensures ContainsService(RegisterFramework(ds, resolver), IPathResolveServiceType)
    ensures ContainsService(RegisterFramework(ds, resolver), IHttpClientServiceType)
  {
    var ds1 := AddIfAbsent(ds, ServiceDescriptor(IJsonOptionsResolverType, Singleton, ResolverInstance(resolver)));
    var ds2 := AddIfAbsent(ds1, ServiceDescriptor(IPathResolveServiceType, Scoped, ImplementationType(PathResolveServiceType)));
    var ds3 := RegisterFramework(ds, resolver);
    assert ds1 <= ds2 <= ds3;
    var i :| 0 <= i < |ds1| && ds1[i].serviceType == IJsonOptionsResolverType;
    assert ds3[i] == ds1[i];
    var j :| 0 <= j < |ds2| && ds2[j].serviceType == IPathResolveServiceType;
    assert ds3[j] == ds2[j];
  }

  /** Registering into a collection that already holds every service type adds nothing and cannot fail. */
  lemma {:induction false} RegisterInterfacesWhenPresent(ds: seq<ServiceDescriptor>, ifaces: seq<ClrType>,
                                                         impls: map<ClrType, Option<ClrType>>, n: nat)
    requires n <= |ifaces| && forall t :: t in ifaces ==> t in impls
    requires forall k :: 0 <= k < n ==> ContainsService(ds, ifaces[k])
    ensures RegisterInterfaces(ds, ifaces, impls, n) == RegisterOutcome(ds, None)
  {
    if n > 0 {
      RegisterInterfacesWhenPresent(ds, ifaces, impls, n - 1);
      assert ContainsService(ds, ifaces[n - 1]);
    }
  }

  /** A service type present in a prefix is present in the whole. */
  lemma ContainsServiceGrows(ds: seq<ServiceDescriptor>, more: seq<ServiceDescriptor>, t: ClrType)
    requires ds <= more && ContainsService(ds, t)
    ensures ContainsService(more, t)
  {
    var i :| 0 <= i < |ds| && ds[i].serviceType == t;
    assert more[i] == ds[i];
  }

  /**
   * Register is idempotent: after one that did not fail, a second Register with the same
   * interfaces (and any resolver) adds nothing and does not fail.
   */
  lemma RegisterTwiceAddsNothing(ds: seq<ServiceDescriptor>, resolver: JsonOptionsResolver, resolver2: JsonOptionsResolver,
                                 ifaces: seq<ClrType>, impls: map<ClrType, Option<ClrType>>)
    requires forall t :: t in ifaces ==> t in impls
    ensures var out := RegisterInterfaces(RegisterFramework(ds, resolver), ifaces, impls, |ifaces|);
            out.error.None? ==>
              RegisterInterfaces(RegisterFramework(out.descriptors, resolver2), ifaces, impls, |ifaces|)
              == RegisterOutcome(out.descriptors, None)
  {
    var framework := RegisterFramework(ds, resolver);
    var out := RegisterInterfaces(framework, ifaces, impls, |ifaces|);
    if out.error.None? {
      RegisterInterfacesAppends(framework, ifaces, impls, |ifaces|);
      RegisterFrameworkCovers(ds, resolver);
      ContainsServiceGrows(framework, out.descriptors, IJsonOptionsResolverType);
      ContainsServiceGrows(framework, out.descriptors, IPathResolveServiceType);
      ContainsServiceGrows(framework, out.descriptors, IHttpClientServiceType);
      assert RegisterFramework(out.descriptors, resolver2) == out.descriptors;
      RegisterCovers(framework, ifaces, impls, |ifaces|);
      RegisterInterfacesWhenPresent(out.descriptors, ifaces, impls, |ifaces|);
    }
  }

  /**
   * The resolver a fresh Register installs answers an interface's key with the options
   * added for that interface, and any other key with the default.
   */
  lemma RegisteredResolverLookup(defaultJsonOptions: JsonOptions, jsonOptions: map<string, JsonOptions>,
                                 iface: ClrType, options: JsonOptions)
    requires JsonOptionsKey(iface) !in jsonOptions
    ensures CreateWithBoth(defaultJsonOptions, jsonOptions[JsonOptionsKey(iface) := options])
              .GetJsonOptions("gHttpButler_" + iface.name) == options
    ensures forall key :: key != JsonOptionsKey(iface) ==>
              CreateWithBoth(defaultJsonOptions, jsonOptions[JsonOptionsKey(iface) := options]).GetJsonOptions(key)
              == CreateWithBoth(defaultJsonOptions, jsonOptions).GetJsonOptions(key)
  {
  }

  /** Two interfaces with the same simple name share one JSON options key, whatever their namespaces. */
  lemma JsonOptionsKeyIgnoresNamespace(a: ClrType, b: ClrType)
    ensures JsonOptionsKey(a) == JsonOptionsKey(b) <==> a.name == b.name
  {
    if JsonOptionsKey(a) == JsonOptionsKey(b) {
      assert a.name == JsonOptionsKey(a)[12..];
      assert b.name == JsonOptionsKey(b)[12..];
    }
  }
}

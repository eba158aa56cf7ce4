/** From decrypted configuration to runtime objects (`build_data_plane`,
    src/astropath/assembly.py:118-170): one provider object per backend, HE record keys
    registered on it zone by zone, and one route per zone.

    Provider classes are known by type name; whether a class accepts a configuration is an
    oracle.  Names are taken as already parsed. */
module Assembly {
  import opened Wrappers
  import opened Names
  import opened Routing

  const HURRICANE := "hurricane"

  type Config = map<string, string>

  /** `heDynamicKey` is empty when there is none. */
  datatype ZoneConfig = ZoneConfig(zone: Name, provider: string, recordName: Name, heDynamicKey: string,
      backend: Option<string>)

  datatype BackendConfig = BackendConfig(name: string, provider: string, config: Config)

  /** A provider object with its identity; what one does to a record is `Dispatch.Provider`. */
  class ProviderInstance {
    const ptype: string
    const config: Config
    var recordKeys: map<Name, string>

    constructor (ptype: string, config: Config)
      ensures this.ptype == ptype && this.config == config && recordKeys == map[]
    {
      this.ptype, this.config, recordKeys := ptype, config, map[];
    }

    method RegisterRecordKey(record: Name, dynamicKey: string)
      modifies this
      ensures recordKeys == old(recordKeys)[Canonical(record) := dynamicKey]
    {
      recordKeys := recordKeys[Canonical(record) := dynamicKey];
    }
  }

  // ---------------------------------------------------------------- what each zone asks for

  /** The name providers are shared by: the backend, or the provider type without one. */
  function KeyOf(z: ZoneConfig): string {
    if z.backend.Some? && z.backend.value != "" then z.backend.value else z.provider
  }

  /** The last backend of that name wins, as in the dictionary built from the list. */
  function BackendNamed(backends: seq<BackendConfig>, name: string): Option<BackendConfig> {
    if backends == [] then None
    else if backends[|backends| - 1].name == name then Some(backends[|backends| - 1])
    else BackendNamed(backends[..|backends| - 1], name)
  }

  datatype Blueprint = Blueprint(ptype: string, config: Config)

  function BlueprintOf(z: ZoneConfig, backends: seq<BackendConfig>): Blueprint {
    var backend := if z.backend.Some? then BackendNamed(backends, z.backend.value) else None;
    if backend.Some? then Blueprint(backend.value.provider, backend.value.config)
    else Blueprint(z.provider, map[])
  }

  /** The zone whose turn builds the provider for `key`: the first that has that key. */
  function FirstWith(zones: seq<ZoneConfig>, key: string): Option<nat> {
    if zones == [] then None
    else
      var n := |zones| - 1;
      var before := FirstWith(zones[..n], key);
      if before.Some? then before else if KeyOf(zones[n]) == key then Some(n) else None
  }

  lemma {:induction false} FirstWithExact(zones: seq<ZoneConfig>, key: string)
    ensures FirstWith(zones, key) == None <==> forall i :: 0 <= i < |zones| ==> KeyOf(zones[i]) != key
    ensures FirstWith(zones, key).Some? ==>
              var n := FirstWith(zones, key).value;
              n < |zones| && KeyOf(zones[n]) == key && forall i :: 0 <= i < n ==> KeyOf(zones[i]) != key
  {
    if zones != [] { FirstWithExact(zones[..|zones| - 1], key); }
  }

  /** The HE keys registered on the provider for `key`: later zones overwrite. */
  function RecordKeys(zones: seq<ZoneConfig>, key: string, ptype: string): map<Name, string> {
    if zones == [] || ptype != HURRICANE then map[]
    else
      var before, z := RecordKeys(zones[..|zones| - 1], key, ptype), zones[|zones| - 1];
      if KeyOf(z) == key && z.heDynamicKey != "" then before[Canonical(z.recordName) := z.heDynamicKey] else before
  }

  // ---------------------------------------------------------------- building

  datatype AssemblyError = UnknownProvider(ptype: string) | InvalidConfig(ptype: string)

  datatype Runtime = Runtime(routes: seq<Route<ProviderInstance>>, providers: map<string, ProviderInstance>)

  predicate Buildable(b: Blueprint, registry: set<string>, accepts: (string, Config) -> bool) {
    b.ptype in registry && accepts(b.ptype, b.config)
  }

  /** A provider object's state as a value. */
  datatype Info = Info(blueprint: Blueprint, recordKeys: map<Name, string>)

  ghost function InfoOf(p: ProviderInstance): Info
    reads p
  {
    Info(Blueprint(p.ptype, p.config), p.recordKeys)
  }

  ghost function InfosOf(providers: map<string, ProviderInstance>): map<string, Info>
    reads providers.Values
  {
    map k | k in providers :: InfoOf(providers[k])
  }

  /** What is built for `zones`: one provider for each key, made from the first zone with it and
      holding the record keys of all, and a route per zone that leads to its key's provider. */
  ghost predicate Assembled(zones: seq<ZoneConfig>, backends: seq<BackendConfig>, rt: Runtime)
    reads rt.providers.Values
  {
    && ProvidersFit(zones, backends, InfosOf(rt.providers))
    && RoutesFit(zones, rt.providers, rt.routes)
    && Separate(rt.providers)
  }

  ghost predicate ProvidersFit(zones: seq<ZoneConfig>, backends: seq<BackendConfig>, infos: map<string, Info>) {
    && (forall k :: k in infos <==> FirstWith(zones, k).Some?)
    && (forall k :: k in infos ==> ProviderFits(zones, backends, k, infos[k]))
  }

  ghost predicate ProviderFits(zones: seq<ZoneConfig>, backends: seq<BackendConfig>, k: string, info: Info) {
    && FirstWith(zones, k).Some? && FirstWith(zones, k).value < |zones|
    && info.blueprint == BlueprintOf(zones[FirstWith(zones, k).value], backends)
    && info.recordKeys == RecordKeys(zones, k, info.blueprint.ptype)
  }

  ghost predicate RoutesFit(zones: seq<ZoneConfig>, providers: map<string, ProviderInstance>,
                            routes: seq<Route<ProviderInstance>>)
  {
    && |routes| == |zones|
    && (forall i :: 0 <= i < |zones| ==> RouteFits(zones[i], providers, routes[i]))
  }

  /** Distinct keys have distinct objects. */
  ghost predicate Separate(providers: map<string, ProviderInstance>) {
    forall k, l :: k in providers && l in providers && providers[k] == providers[l] ==> k == l
  }

  ghost predicate RouteFits(z: ZoneConfig, providers: map<string, ProviderInstance>, route: Route<ProviderInstance>) {
    && route.zone == Canonical(z.zone) && route.recordName == Canonical(z.recordName)
    && KeyOf(z) in providers && route.provider == providers[KeyOf(z)]
  }

  lemma {:induction false} FirstStays(zones: seq<ZoneConfig>, n: nat, key: string)
    requires n <= |zones| && FirstWith(zones[..n], key).Some?
    ensures FirstWith(zones, key) == FirstWith(zones[..n], key)
  {
    if n < |zones| {
      var before := zones[..|zones| - 1];
      assert before[..n] == zones[..n];
      FirstStays(before, n, key);
    } else {
      assert zones[..n] == zones;
    }
  }

  /** One more zone: who is first for a key, and which record keys are registered. */
  lemma OneMoreZone(zones: seq<ZoneConfig>, z: ZoneConfig, k: string, ptype: string)
    ensures FirstWith(zones + [z], k) ==
              if FirstWith(zones, k).Some? then FirstWith(zones, k)
              else if KeyOf(z) == k then Some(|zones|) else None
    ensures RecordKeys(zones + [z], k, ptype) ==
              if ptype == HURRICANE && KeyOf(z) == k && z.heDynamicKey != ""
              then RecordKeys(zones, k, ptype)[Canonical(z.recordName) := z.heDynamicKey]
              else RecordKeys(zones, k, ptype)
    ensures FirstWith(zones, k) == None ==> RecordKeys(zones, k, ptype) == map[]
  {
    assert (zones + [z])[..|zones|] == zones;
    if FirstWith(zones, k) == None { NoKeysBefore(zones, k, ptype); }
  }

  lemma {:induction false} NoKeysBefore(zones: seq<ZoneConfig>, k: string, ptype: string)
    requires FirstWith(zones, k) == None
    ensures RecordKeys(zones, k, ptype) == map[]
  {
    if zones != [] { NoKeysBefore(zones[..|zones| - 1], k, ptype); }
  }

  /** The blueprint a zone list builds for a key can be built. */
  predicate FirstBuildable(zones: seq<ZoneConfig>, backends: seq<BackendConfig>, k: string,
                           registry: set<string>, accepts: (string, Config) -> bool)
  {
    FirstWith(zones, k).Some? ==>
      FirstWith(zones, k).value < |zones| &&
      Buildable(BlueprintOf(zones[FirstWith(zones, k).value], backends), registry, accepts)
  }

  /** The provider of a zone before its record key: the existing one of its key or a new one. */
  function BeforeZone(z: ZoneConfig, backends: seq<BackendConfig>, infos: map<string, Info>): Info {
    if KeyOf(z) in infos then infos[KeyOf(z)] else Info(BlueprintOf(z, backends), map[])
  }

  /** What one more zone does to its provider: build it if it is the first, register its key. */
  function AfterZone(z: ZoneConfig, backends: seq<BackendConfig>, infos: map<string, Info>): Info {
    var before := BeforeZone(z, backends, infos);
    if before.blueprint.ptype == HURRICANE && z.heDynamicKey != ""
    then before.(recordKeys := before.recordKeys[Canonical(z.recordName) := z.heDynamicKey])
    else before
  }

  lemma ProvidersStillFit(zones: seq<ZoneConfig>, z: ZoneConfig, backends: seq<BackendConfig>, infos: map<string, Info>)
    requires ProvidersFit(zones, backends, infos)
    ensures ProvidersFit(zones + [z], backends, infos[KeyOf(z) := AfterZone(z, backends, infos)])
  {
    var infos' := infos[KeyOf(z) := AfterZone(z, backends, infos)];
    forall k ensures k in infos' <==> FirstWith(zones + [z], k).Some? { OneMoreZone(zones, z, k, ""); }
    forall k | k in infos' ensures ProviderFits(zones + [z], backends, k, infos'[k]) {
      OneMoreZone(zones, z, k, infos'[k].blueprint.ptype);
      if k in infos { assert ProviderFits(zones, backends, k, infos[k]); }
    }
  }

  ghost predicate AllBuildable(zones: seq<ZoneConfig>, backends: seq<BackendConfig>,
                               registry: set<string>, accepts: (string, Config) -> bool)
  {
    forall k :: FirstBuildable(zones, backends, k, registry, accepts)
  }

  lemma StillBuildable(zones: seq<ZoneConfig>, z: ZoneConfig, backends: seq<BackendConfig>,
                       registry: set<string>, accepts: (string, Config) -> bool)
    requires AllBuildable(zones, backends, registry, accepts)
    requires FirstWith(zones, KeyOf(z)) == None ==> Buildable(BlueprintOf(z, backends), registry, accepts)
    ensures AllBuildable(zones + [z], backends, registry, accepts)
  {
    forall k ensures FirstBuildable(zones + [z], backends, k, registry, accepts) {
      assert FirstBuildable(zones, backends, k, registry, accepts);
      OneMoreZone(zones, z, k, "");
      FirstWithExact(zones, k);
    }
  }

  lemma RoutesStillFit(zones: seq<ZoneConfig>, z: ZoneConfig, providers: map<string, ProviderInstance>,
                       routes: seq<Route<ProviderInstance>>, p: ProviderInstance)
    requires RoutesFit(zones, providers, routes)
    requires KeyOf(z) in providers ==> p == providers[KeyOf(z)]
    ensures RoutesFit(zones + [z], providers[KeyOf(z) := p],
                      routes + [Route(Canonical(z.zone), p, Canonical(z.recordName))])
  {
    var routes' := routes + [Route(Canonical(z.zone), p, Canonical(z.recordName))];
    forall i | 0 <= i < |zones + [z]| ensures RouteFits((zones + [z])[i], providers[KeyOf(z) := p], routes'[i]) {
      if i < |zones| { assert RouteFits(zones[i], providers, routes[i]); }
    }
  }

  lemma NotBuildable(zones: seq<ZoneConfig>, i: nat, backends: seq<BackendConfig>,
                     registry: set<string>, accepts: (string, Config) -> bool)
    requires i < |zones| && FirstWith(zones[..i], KeyOf(zones[i])) == None
    requires !Buildable(BlueprintOf(zones[i], backends), registry, accepts)
    ensures !FirstBuildable(zones, backends, KeyOf(zones[i]), registry, accepts)
  {
    assert zones[..i + 1] == zones[..i] + [zones[i]];
    OneMoreZone(zones[..i], zones[i], KeyOf(zones[i]), "");
    FirstStays(zones, i + 1, KeyOf(zones[i]));
  }

  lemma ValuesGrow(providers: map<string, ProviderInstance>, k: string, p: ProviderInstance)
    ensures providers[k := p].Values <= providers.Values + {p}
  {
  }

  lemma LinkedInfos(providers: map<string, ProviderInstance>, infos: map<string, Info>)
    requires Linked(providers, infos)
    ensures InfosOf(providers) == infos
  {
    var read := InfosOf(providers);
    assert read.Keys == infos.Keys;
    assert forall k :: k in read ==> read[k] == infos[k];
  }

  lemma AssembledFromParts(zones: seq<ZoneConfig>, backends: seq<BackendConfig>,
                           providers: map<string, ProviderInstance>,
                           routes: seq<Route<ProviderInstance>>, infos: map<string, Info>)
    requires ProvidersFit(zones, backends, infos) && Linked(providers, infos) && RoutesFit(zones, providers, routes)
    ensures Assembled(zones, backends, Runtime(routes, providers))
  {
    LinkedInfos(providers, infos);
  }

  // ---------------------------------------------------------------- the loop, on values

  /** The error for a blueprint that cannot be built: an unknown type is noticed first. */
  function Refusal(b: Blueprint, registry: set<string>): AssemblyError {
    if b.ptype in registry then InvalidConfig(b.ptype) else UnknownProvider(b.ptype)
  }

  function Assemble(zones: seq<ZoneConfig>, backends: seq<BackendConfig>, registry: set<string>,
                    accepts: (string, Config) -> bool, infos: map<string, Info>)
    : Result<map<string, Info>, AssemblyError>
  {
    if zones == [] then Ok(infos)
    else
      var z := zones[0];
      if KeyOf(z) !in infos && !Buildable(BlueprintOf(z, backends), registry, accepts)
      then Err(Refusal(BlueprintOf(z, backends), registry))
      else Assemble(zones[1..], backends, registry, accepts, infos[KeyOf(z) := AfterZone(z, backends, infos)])
  }

  /** From any point of the loop, the rest succeeds exactly when every provider to
      be built can be, and leaves one provider per key: built from the first zone with that key,
      holding the record keys of all of them. */
  lemma {:induction false} AssembleExact(done: seq<ZoneConfig>, zones: seq<ZoneConfig>, backends: seq<BackendConfig>,
                                         registry: set<string>, accepts: (string, Config) -> bool,
                                         infos: map<string, Info>)
    requires ProvidersFit(done, backends, infos) && AllBuildable(done, backends, registry, accepts)
    ensures Assemble(zones, backends, registry, accepts, infos).Ok? <==>
            AllBuildable(done + zones, backends, registry, accepts)
    ensures Assemble(zones, backends, registry, accepts, infos).Ok? ==>
              ProvidersFit(done + zones, backends, Assemble(zones, backends, registry, accepts, infos).value)
    decreases |zones|
  {
    if zones == [] {
      assert done + zones == done;
    } else {
      var z := zones[0];
      var all := done + zones;
      assert all == (done + [z]) + zones[1..];
      assert KeyOf(z) in infos <==> FirstWith(done, KeyOf(z)).Some?;
      if KeyOf(z) !in infos && !Buildable(BlueprintOf(z, backends), registry, accepts) {
        assert all[..|done|] == done && all[|done|] == z;
        NotBuildable(all, |done|, backends, registry, accepts);
      } else {
        ProvidersStillFit(done, z, backends, infos);
        StillBuildable(done, z, backends, registry, accepts);
        AssembleExact(done + [z], zones[1..], backends, registry, accepts,
                      infos[KeyOf(z) := AfterZone(z, backends, infos)]);
      }
    }
  }

  lemma AssembleWhole(zones: seq<ZoneConfig>, backends: seq<BackendConfig>, registry: set<string>,
                      accepts: (string, Config) -> bool)
    ensures Assemble(zones, backends, registry, accepts, map[]).Ok? <==>
              AllBuildable(zones, backends, registry, accepts)
    ensures Assemble(zones, backends, registry, accepts, map[]).Ok? ==>
              ProvidersFit(zones, backends, Assemble(zones, backends, registry, accepts, map[]).value)
  {
    assert forall k :: FirstWith([], k) == None;
    AssembleExact([], zones, backends, registry, accepts, map[]);
    assert [] + zones == zones;
  }

  // ---------------------------------------------------------------- the loop, on objects

  /** Distinct objects for distinct keys, in the states that `infos` says. */
  ghost predicate Linked(providers: map<string, ProviderInstance>, infos: map<string, Info>)
    reads providers.Values
  {
    && infos.Keys == providers.Keys
    && (forall k :: k in providers ==> InfoOf(providers[k]) == infos[k])
    && Separate(providers)
  }

  method ExistingOrNew(z: ZoneConfig, backends: seq<BackendConfig>, registry: set<string>,
                       accepts: (string, Config) -> bool, providers: map<string, ProviderInstance>,
                       ghost infos: map<string, Info>)
    returns (r: Result<ProviderInstance, AssemblyError>)
    requires Linked(providers, infos)
    ensures r.Ok? <==> KeyOf(z) in providers || Buildable(BlueprintOf(z, backends), registry, accepts)
    ensures r.Err? ==> r.error == Refusal(BlueprintOf(z, backends), registry)
    ensures r.Ok? ==> Linked(providers[KeyOf(z) := r.value], infos[KeyOf(z) := BeforeZone(z, backends, infos)])
    ensures r.Ok? ==> if KeyOf(z) in providers then r.value == providers[KeyOf(z)] else fresh(r.value)
  {
    if KeyOf(z) in providers {
      return Ok(providers[KeyOf(z)]);
    }
    var b := BlueprintOf(z, backends);
    if b.ptype !in registry {
      return Err(UnknownProvider(b.ptype));
    }
    if !accepts(b.ptype, b.config) {
      return Err(InvalidConfig(b.ptype));
    }
    var provider := new ProviderInstance(b.ptype, b.config);
    return Ok(provider);
  }

  /** The provider for one zone: the existing one of its key or a new one, with its HE record
      key registered. */
  method ProviderFor(z: ZoneConfig, backends: seq<BackendConfig>, registry: set<string>,
                     accepts: (string, Config) -> bool, providers: map<string, ProviderInstance>,
                     ghost infos: map<string, Info>)
    returns (r: Result<ProviderInstance, AssemblyError>)
    requires Linked(providers, infos)
    modifies providers.Values
    ensures r.Ok? <==> KeyOf(z) in providers || Buildable(BlueprintOf(z, backends), registry, accepts)
    ensures r.Err? ==> r.error == Refusal(BlueprintOf(z, backends), registry)
    ensures r.Ok? ==> Linked(providers[KeyOf(z) := r.value], infos[KeyOf(z) := AfterZone(z, backends, infos)])
    ensures r.Ok? ==> if KeyOf(z) in providers then r.value == providers[KeyOf(z)] else fresh(r.value)
  {
    r := ExistingOrNew(z, backends, registry, accepts, providers, infos);
    if r.Ok? {
      var provider := r.value;
      assert providers[KeyOf(z) := provider][KeyOf(z)] == provider;
      if provider.ptype == HURRICANE && z.heDynamicKey != "" {
        provider.RegisterRecordKey(z.recordName, z.heDynamicKey);
      }
    }
  }

  /** Zone by zone, the objects follow the values of `Assemble`, and every route leads to the
      object of its zone's key. */
  method BuildDataPlane(zones: seq<ZoneConfig>, backends: seq<BackendConfig>,
                        registry: set<string>, accepts: (string, Config) -> bool)
    returns (r: Result<Runtime, AssemblyError>)
    ensures r.Ok? <==> AllBuildable(zones, backends, registry, accepts)
    ensures r.Err? ==> Assemble(zones, backends, registry, accepts, map[]) == Err(r.error)
    ensures r.Ok? ==> Assembled(zones, backends, r.value) && fresh(r.value.providers.Values)
  {
    AssembleWhole(zones, backends, registry, accepts);
    var providers: map<string, ProviderInstance> := map[];
    var routes: seq<Route<ProviderInstance>> := [];
    ghost var infos: map<string, Info> := map[];
    var i := 0;
    while i < |zones|
      invariant 0 <= i <= |zones|
      invariant Linked(providers, infos) && fresh(providers.Values)
      invariant RoutesFit(zones[..i], providers, routes)
      invariant Assemble(zones[i..], backends, registry, accepts, infos)
             == Assemble(zones, backends, registry, accepts, map[])
    {
      var z := zones[i];
      var provider := ProviderFor(z, backends, registry, accepts, providers, infos);
      if provider.Err? {
        return Err(provider.error);
      }
      assert zones[..i + 1] == zones[..i] + [z];
      assert zones[i..][1..] == zones[i + 1..];
      RoutesStillFit(zones[..i], z, providers, routes, provider.value);
      infos := infos[KeyOf(z) := AfterZone(z, backends, infos)];
      ValuesGrow(providers, KeyOf(z), provider.value);
      providers := providers[KeyOf(z) := provider.value];
      routes := routes + [Route(Canonical(z.zone), provider.value, Canonical(z.recordName))];
      i := i + 1;
    }
    assert zones[..i] == zones;
    AssembledFromParts(zones, backends, providers, routes, infos);
    return Ok(Runtime(routes, providers));
  }

  // ---------------------------------------------------------------- what a zone gets

  /** Distinct, non-empty backend names, and a listed backend for every zone. */
  ghost predicate WellLinked(zones: seq<ZoneConfig>, backends: seq<BackendConfig>) {
    && (forall a, b :: 0 <= a < b < |backends| ==> backends[a].name != backends[b].name)
    && (forall b :: 0 <= b < |backends| ==> backends[b].name != "")
    && (forall i :: 0 <= i < |zones| ==> exists b :: Uses(zones[i], backends, b))
  }

  ghost predicate Uses(z: ZoneConfig, backends: seq<BackendConfig>, b: int) {
    0 <= b < |backends| && z.backend == Some(backends[b].name)
  }

  lemma {:induction false} BackendFound(backends: seq<BackendConfig>, b: nat)
    requires b < |backends| && forall c :: b < c < |backends| ==> backends[c].name != backends[b].name
    ensures BackendNamed(backends, backends[b].name) == Some(backends[b])
  {
    if b < |backends| - 1 { BackendFound(backends[..|backends| - 1], b); }
  }

  /** Zone `i` is served by an object of the type and configuration that it asks for itself. */
  ghost predicate ServedAsAsked(zones: seq<ZoneConfig>, backends: seq<BackendConfig>, rt: Runtime, i: nat)
    requires i < |zones| && i < |rt.routes|
  {
    Blueprint(rt.routes[i].provider.ptype, rt.routes[i].provider.config) == BlueprintOf(zones[i], backends)
  }

  /** The two zones do not ask for different providers under one key. */
  predicate Agree(zones: seq<ZoneConfig>, backends: seq<BackendConfig>, i: nat, j: nat)
    requires i < |zones| && j < |zones|
  {
    KeyOf(zones[i]) == KeyOf(zones[j]) ==> BlueprintOf(zones[i], backends) == BlueprintOf(zones[j], backends)
  }

  /** A zone is served by what the first zone with its key asks for. */
  lemma ServedAsFirst(zones: seq<ZoneConfig>, backends: seq<BackendConfig>, rt: Runtime, i: nat) returns (first: nat)
    requires Assembled(zones, backends, rt) && i < |zones|
    ensures first < |zones| == |rt.routes| && KeyOf(zones[first]) == KeyOf(zones[i])
    ensures forall j :: 0 <= j < first ==> KeyOf(zones[j]) != KeyOf(zones[i])
    ensures Blueprint(rt.routes[i].provider.ptype, rt.routes[i].provider.config) == BlueprintOf(zones[first], backends)
  {
    var key := KeyOf(zones[i]);
    assert RouteFits(zones[i], rt.providers, rt.routes[i]);
    assert key in InfosOf(rt.providers) && ProviderFits(zones, backends, key, InfosOf(rt.providers)[key]);
    FirstWithExact(zones, key);
    first := FirstWith(zones, key).value;
  }

  /** Every zone is served as it asks if and only if no two zones ask for different providers
      under one key, whichever comes first. */
  lemma ServedAsAskedIff(zones: seq<ZoneConfig>, backends: seq<BackendConfig>, rt: Runtime)
    requires Assembled(zones, backends, rt)
    ensures |rt.routes| == |zones|
    ensures (forall i: nat :: i < |zones| ==> ServedAsAsked(zones, backends, rt, i)) <==>
            (forall i: nat, j: nat :: i < |zones| && j < |zones| ==> Agree(zones, backends, i, j))
  {
    if forall i: nat :: i < |zones| ==> ServedAsAsked(zones, backends, rt, i) {
      forall i: nat, j: nat | i < |zones| && j < |zones| ensures Agree(zones, backends, i, j) {
        assert ServedAsAsked(zones, backends, rt, i) && ServedAsAsked(zones, backends, rt, j);
        assert RouteFits(zones[i], rt.providers, rt.routes[i]) && RouteFits(zones[j], rt.providers, rt.routes[j]);
      }
    }
    if forall i: nat, j: nat :: i < |zones| && j < |zones| ==> Agree(zones, backends, i, j) {
      forall i: nat | i < |zones| ensures ServedAsAsked(zones, backends, rt, i) {
        var first := ServedAsFirst(zones, backends, rt, i);
        assert Agree(zones, backends, first, i);
      }
    }
  }

  lemma UsesItsBackend(zones: seq<ZoneConfig>, backends: seq<BackendConfig>, i: nat, b: nat)
    requires WellLinked(zones, backends) && i < |zones| && Uses(zones[i], backends, b)
    ensures KeyOf(zones[i]) == backends[b].name
    ensures BlueprintOf(zones[i], backends) == Blueprint(backends[b].provider, backends[b].config)
  {
    BackendFound(backends, b);
  }

  lemma WellLinkedZonesAgree(zones: seq<ZoneConfig>, backends: seq<BackendConfig>, i: nat, j: nat)
    requires WellLinked(zones, backends) && i < |zones| && j < |zones|
    ensures Agree(zones, backends, i, j)
  {
    var b, c :| Uses(zones[i], backends, b) && Uses(zones[j], backends, c);
    UsesItsBackend(zones, backends, i, b);
    UsesItsBackend(zones, backends, j, c);
  }

  /** Every zone is served from its own backend's type and configuration, whichever zone came
      first, and two zones share a provider object exactly when they share a backend. */
  lemma ZonesReachTheirBackends(zones: seq<ZoneConfig>, backends: seq<BackendConfig>, rt: Runtime)
    requires Assembled(zones, backends, rt) && WellLinked(zones, backends)
    ensures forall i, b :: 0 <= i < |zones| && Uses(zones[i], backends, b) ==>
              rt.routes[i].provider.ptype == backends[b].provider && rt.routes[i].provider.config == backends[b].config
    ensures forall i, j :: 0 <= i < |zones| && 0 <= j < |zones| ==>
              (rt.routes[i].provider == rt.routes[j].provider <==> zones[i].backend == zones[j].backend)
  {
    forall i, b | 0 <= i < |zones| && Uses(zones[i], backends, b)
      ensures rt.routes[i].provider.ptype == backends[b].provider && rt.routes[i].provider.config == backends[b].config
    {
      ReachesItsBackend(zones, backends, rt, i, b);
    }
    forall i, j | 0 <= i < |zones| && 0 <= j < |zones|
      ensures rt.routes[i].provider == rt.routes[j].provider <==> zones[i].backend == zones[j].backend
    {
      var b, c :| Uses(zones[i], backends, b) && Uses(zones[j], backends, c);
      assert RouteFits(zones[i], rt.providers, rt.routes[i]) && RouteFits(zones[j], rt.providers, rt.routes[j]);
    }
  }

  lemma ReachesItsBackend(zones: seq<ZoneConfig>, backends: seq<BackendConfig>, rt: Runtime, i: nat, b: nat)
    requires Assembled(zones, backends, rt) && WellLinked(zones, backends)
    requires i < |zones| && Uses(zones[i], backends, b)
    ensures rt.routes[i].provider.ptype == backends[b].provider && rt.routes[i].provider.config == backends[b].config
  {
    forall j: nat, k: nat | j < |zones| && k < |zones| ensures Agree(zones, backends, j, k) {
      WellLinkedZonesAgree(zones, backends, j, k);
    }
    ServedAsAskedIff(zones, backends, rt);
    assert ServedAsAsked(zones, backends, rt, i);
    UsesItsBackend(zones, backends, i, b);
  }

  /** Zones that name no backend share an object exactly when they are of one provider type. */
  lemma WithoutBackendSharedByType(zones: seq<ZoneConfig>, backends: seq<BackendConfig>, rt: Runtime, i: nat, j: nat)
    requires Assembled(zones, backends, rt) && i < |zones| && j < |zones|
    requires zones[i].backend in {None, Some("")} && zones[j].backend in {None, Some("")}
    ensures |rt.routes| == |zones|
    ensures rt.routes[i].provider == rt.routes[j].provider <==> zones[i].provider == zones[j].provider
  {
    assert RouteFits(zones[i], rt.providers, rt.routes[i]) && RouteFits(zones[j], rt.providers, rt.routes[j]);
  }

  /** With distinct zones, a name is routed to the zone that is its longest
      configured suffix: to that zone's record name, on that zone's backend. */
  lemma NameReachesLongestZone(zones: seq<ZoneConfig>, backends: seq<BackendConfig>, rt: Runtime, name: Name,
                               i: nat, b: nat)
    requires Assembled(zones, backends, rt) && WellLinked(zones, backends)
    requires forall k, l :: 0 <= k < l < |zones| ==> Canonical(zones[k].zone) != Canonical(zones[l].zone)
    requires i < |zones| && IsSuffix(Canonical(zones[i].zone), name) && Uses(zones[i], backends, b)
    requires forall k :: 0 <= k < |zones| && IsSuffix(Canonical(zones[k].zone), name) ==>
              |zones[k].zone| <= |zones[i].zone|
    ensures var route := MatchFrom(TableOf(rt.routes), name);
            && route.Some? && route.value.recordName == Canonical(zones[i].recordName)
            && route.value.provider.ptype == backends[b].provider && route.value.provider.config == backends[b].config
  {
    RoutesAreZones(zones, rt);
    MatchServesLongest(rt.routes, name);
    assert Serves(rt.routes, name, i);
    ReachesItsBackend(zones, backends, rt, i, b);
  }

  lemma RoutesAreZones(zones: seq<ZoneConfig>, rt: Runtime)
    requires RoutesFit(zones, rt.providers, rt.routes)
    ensures |rt.routes| == |zones|
    ensures forall k :: 0 <= k < |zones| ==> rt.routes[k].zone == Canonical(zones[k].zone)
    ensures forall k :: 0 <= k < |zones| ==> rt.routes[k].recordName == Canonical(zones[k].recordName)
  {
    forall k | 0 <= k < |zones|
      ensures rt.routes[k].zone == Canonical(zones[k].zone) && rt.routes[k].recordName == Canonical(zones[k].recordName)
    {
      assert RouteFits(zones[k], rt.providers, rt.routes[k]);
    }
  }

  /** The HE key of a zone is the one its provider holds for its record, unless a later zone of
      the same provider has a key for the same record. */
  lemma {:induction false} LastRecordKeyWins(zones: seq<ZoneConfig>, i: nat)
    requires i < |zones| && zones[i].heDynamicKey != ""
    requires forall j :: i < j < |zones| && KeyOf(zones[j]) == KeyOf(zones[i]) && zones[j].heDynamicKey != "" ==>
               Canonical(zones[j].recordName) != Canonical(zones[i].recordName)
    ensures var keys := RecordKeys(zones, KeyOf(zones[i]), HURRICANE);
            Canonical(zones[i].recordName) in keys && keys[Canonical(zones[i].recordName)] == zones[i].heDynamicKey
  {
    if i < |zones| - 1 { LastRecordKeyWins(zones[..|zones| - 1], i); }
  }

  /** A provider holds no other HE keys than those of its zones, and none unless it is HE's. */
  lemma {:induction false} RecordKeysComeFromZones(zones: seq<ZoneConfig>, key: string, ptype: string, record: Name)
    requires record in RecordKeys(zones, key, ptype)
    ensures ptype == "hurricane"
    ensures exists i :: 0 <= i < |zones| && KeyOf(zones[i]) == key && zones[i].heDynamicKey != ""
                        && Canonical(zones[i].recordName) == record
                        && RecordKeys(zones, key, ptype)[record] == zones[i].heDynamicKey
  {
    var n := |zones| - 1;
    var before, z := zones[..n], zones[n];
    if KeyOf(z) == key && z.heDynamicKey != "" && Canonical(z.recordName) == record {
      assert RecordKeys(zones, key, ptype)[record] == zones[n].heDynamicKey;
    } else {
      RecordKeysComeFromZones(before, key, ptype, record);
      var i :| 0 <= i < |before| && KeyOf(before[i]) == key && before[i].heDynamicKey != ""
               && Canonical(before[i].recordName) == record
               && RecordKeys(before, key, ptype)[record] == before[i].heDynamicKey;
      assert zones[i] == before[i];
    }
  }

  /** Why a provider for `b` cannot be built. */
  predicate Explains(error: AssemblyError, b: Blueprint, registry: set<string>, accepts: (string, Config) -> bool) {
    match error
    case UnknownProvider(ptype) => ptype == b.ptype && ptype !in registry
    case InvalidConfig(ptype) => ptype == b.ptype && ptype in registry && !accepts(ptype, b.config)
  }

  lemma OneZoneOn(done: seq<ZoneConfig>, zones: seq<ZoneConfig>, k: nat)
    requires zones != [] && k < |zones| - 1
    ensures (done + [zones[0]]) + zones[1..][..k] == done + zones[..k + 1] && zones[1..][k] == zones[k + 1]
  {
  }

  /** The error reported is that of the first zone whose provider cannot be built: an unregistered
      type, or a registered one that does not accept the configuration. */
  lemma {:induction false} RefusalIsFirst(done: seq<ZoneConfig>, zones: seq<ZoneConfig>, backends: seq<BackendConfig>,
                                          registry: set<string>, accepts: (string, Config) -> bool,
                                          infos: map<string, Info>)
    returns (i: nat)
    requires ProvidersFit(done, backends, infos) && AllBuildable(done, backends, registry, accepts)
    requires Assemble(zones, backends, registry, accepts, infos).Err?
    ensures i < |zones| && AllBuildable(done + zones[..i], backends, registry, accepts)
    ensures FirstWith(done + zones[..i], KeyOf(zones[i])) == None
    ensures Explains(Assemble(zones, backends, registry, accepts, infos).error,
                     BlueprintOf(zones[i], backends), registry, accepts)
    decreases |zones|
  {
    var z := zones[0];
    assert KeyOf(z) in infos <==> FirstWith(done, KeyOf(z)).Some?;
    if KeyOf(z) !in infos && !Buildable(BlueprintOf(z, backends), registry, accepts) {
      i := 0;
      assert done + zones[..0] == done;
    } else {
      ProvidersStillFit(done, z, backends, infos);
      StillBuildable(done, z, backends, registry, accepts);
      var infos' := infos[KeyOf(z) := AfterZone(z, backends, infos)];
      var k := RefusalIsFirst(done + [z], zones[1..], backends, registry, accepts, infos');
      i := k + 1;
      OneZoneOn(done, zones, k);
    }
  }

  /** Two zones, the first without a backend and of the type that the second's backend is called. */
  function CollidingZones(first: Name, second: Name): seq<ZoneConfig> {
    [ZoneConfig(first, HURRICANE, first, "", None), ZoneConfig(second, "route53", second, "", Some(HURRICANE))]
  }

  /** A zone without a backend is filed under its provider type, so a backend of that name and
      another type shares a key with it: the condition of `ServedAsAskedIff` fails, these two
      zones are built into one object, and names of the second reach a provider of the first's
      type.  The loader in src/astropath/cache.py:114-128 names a backend for every zone, so only
      a direct caller of `build_data_plane` gets here. */
  method BuildCollidingZones(first: Name, second: Name, config: Config)
    returns (zones: seq<ZoneConfig>, backends: seq<BackendConfig>, rt: Runtime)
    requires Canonical(first) != Canonical(second)
    ensures zones == CollidingZones(first, second) && backends == [BackendConfig(HURRICANE, "route53", config)]
    ensures Assembled(zones, backends, rt) && |rt.routes| == 2
    ensures rt.routes[0].provider == rt.routes[1].provider && !ServedAsAsked(zones, backends, rt, 1)
    ensures MatchFrom(TableOf(rt.routes), Canonical(second)) == Some(rt.routes[1])
    ensures rt.routes[1].provider.ptype == HURRICANE
  {
    zones, backends := CollidingZones(first, second), [BackendConfig(HURRICANE, "route53", config)];
    var registry, accepts := {HURRICANE, "route53"}, (ptype: string, given: Config) => true;
    CollidingBlueprints(first, second, config);
    forall k ensures FirstBuildable(zones, backends, k, registry, accepts) { FirstWithExact(zones, k); }
    var built := BuildDataPlane(zones, backends, registry, accepts);
    rt := built.value;
    CollidingRoutes(first, second, config, rt);
  }

  lemma CollidingRoutes(first: Name, second: Name, config: Config, rt: Runtime)
    requires Canonical(first) != Canonical(second)
    requires Assembled(CollidingZones(first, second), [BackendConfig(HURRICANE, "route53", config)], rt)
    ensures var zones, backends := CollidingZones(first, second), [BackendConfig(HURRICANE, "route53", config)];
            && |rt.routes| == 2 && rt.routes[0].provider == rt.routes[1].provider
            && !ServedAsAsked(zones, backends, rt, 1) && rt.routes[1].provider.ptype == HURRICANE
            && MatchFrom(TableOf(rt.routes), Canonical(second)) == Some(rt.routes[1])
  {
    var zones, backends := CollidingZones(first, second), [BackendConfig(HURRICANE, "route53", config)];
    CollidingBlueprints(first, second, config);
    assert RouteFits(zones[0], rt.providers, rt.routes[0]) && RouteFits(zones[1], rt.providers, rt.routes[1]);
    var served := ServedAsFirst(zones, backends, rt, 1);
    assert KeyOf(zones[0]) == KeyOf(zones[1]) && served == 0;
    assert DistinctZones(rt.routes);
    TableHoldsRoutes(rt.routes);
  }

  lemma CollidingBlueprints(first: Name, second: Name, config: Config)
    ensures var zones, backends := CollidingZones(first, second), [BackendConfig(HURRICANE, "route53", config)];
            && BlueprintOf(zones[0], backends) == Blueprint(HURRICANE, map[])
            && BlueprintOf(zones[1], backends) == Blueprint("route53", config)
            && HURRICANE != "route53"
  {
    var backends := [BackendConfig(HURRICANE, "route53", config)];
    assert BackendNamed(backends, HURRICANE) == Some(backends[0]);
    assert |HURRICANE| != |"route53"|;
  }
}

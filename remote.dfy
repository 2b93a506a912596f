/**
 * An in-memory stand-in for the Traffic Manager control plane that the
 * client in pkg/trafficmanager talks to. Profiles are stored under their
 * (resource group, profile name) key; create and update are upserts; every
 * call is numbered, and a call whose number is in the failure oracle fails.
 * Each call is specified by a step function on the plane as a value, and a
 * ghost log records every call with its outcome.
 */
module Remote {
  import opened Wrappers
  import opened State
  import opened Sync
  import TM = TrafficManager

  /** The DNS zone under which a new profile's relative name is published. */
  const FqdnSuffix: string := ".trafficmanager.net"

  datatype Key = Key(resourceGroup: string, profileName: string)

  /** A stored profile: its settings, its published name and its endpoints as the SDK lists them. */
  datatype RemoteProfile = RemoteProfile(config: TM.ProfileConfig, fqdn: string, endpoints: seq<SdkEndpoint>)

  datatype Op =
    | CreateProfileOp
    | GetProfileOp
    | UpdateProfileOp
    | DeleteProfileOp
    | GetProfileStateOp
    | CreateEndpointOp(endpointName: string)
    | UpdateEndpointOp(endpointName: string)
    | DeleteEndpointOp(endpointName: string)

  datatype Call = Call(op: Op, key: Key, ok: bool)

  /** The control plane as a value: the stored profiles and the calls issued so far. */
  datatype Plane = Plane(profiles: map<Key, RemoteProfile>, log: seq<Call>)

  function KeyOf(c: TM.ProfileConfig): Key { Key(c.resourceGroup, c.profileName) }

  /** The failure oracle lets the next call through. */
  predicate Admits(pl: Plane, failing: set<nat>) { |pl.log| !in failing }

  /** The plane after one more call. */
  function Logged(pl: Plane, op: Op, key: Key, ok: bool, profiles: map<Key, RemoteProfile>): Plane
  {
    Plane(profiles, pl.log + [Call(op, key, ok)])
  }

  // ------------------------------------------------------ the SDK's view

  /** A profile as the SDK returns it: tags as pointers, the DNS settings and the endpoint list. */
  function SdkView(key: Key, rp: RemoteProfile): SdkProfile
  {
    SdkProfile(
      key.profileName,
      Some(ToStringMapPtr(rp.config.tags)),
      Some(SdkProfileProperties(
        Some(SdkDnsConfig(Some(rp.fqdn), Some(rp.config.dnsTtl))),
        Some(rp.config.routingMethod),
        rp.endpoints)))
  }

  /** The endpoint the control plane keeps for cfg; the location is sent only when withLocation holds. */
  function SdkEndpointOf(cfg: TM.EndpointConfig, withLocation: bool): (e: SdkEndpoint)
    ensures e.name == Some(cfg.endpointName) && e.properties.Some?
  {
    SdkEndpoint(
      Some(cfg.endpointName),
      Some(cfg.endpointType),
      Some(SdkEndpointProperties(
        Some(cfg.target), Some(cfg.weight), Some(cfg.priority), Some(cfg.status),
        if withLocation then Some(cfg.location) else None)))
  }

  /** endpointResponseToState: the record CreateEndpoint and UpdateEndpoint hand back. */
  function EndpointResponse(e: SdkEndpoint, now: nat): (s: TM.EndpointState)
    ensures s.createdAt == now && s.updatedAt == now
    ensures e.name.Some? ==> s.endpointName == e.name.value
  {
    var base := TM.EndpointState(StringOrEmpty(e.name), StringOrEmpty(e.endpointType), "", 0, 0, "", "", now, now);
    match e.properties
    case None => base
    case Some(ps) =>
      base.(
        target := StringOrEmpty(ps.target),
        weight := IntOrZero(ps.weight),
        priority := IntOrZero(ps.priority),
        status := StringOrEmpty(ps.endpointStatus),
        location := StringOrEmpty(ps.endpointLocation))
  }

  /** The endpoint list without the entries named n. */
  function RemoveNamed(eps: seq<SdkEndpoint>, n: string): seq<SdkEndpoint>
  {
    if |eps| == 0 then []
    else
      var init := RemoveNamed(eps[..|eps| - 1], n);
      if eps[|eps| - 1].name == Some(n) then init else init + [eps[|eps| - 1]]
  }

  /** The endpoint list with e written under n, replacing any entry of that name. */
  function Upserted(eps: seq<SdkEndpoint>, n: string, e: SdkEndpoint): seq<SdkEndpoint>
  {
    RemoveNamed(eps, n) + [e]
  }

  // ------------------------------------------------------------- the calls

  /** CreateProfile: an upsert; a new profile is published under its name, an existing one keeps its name and endpoints. */
  function CreateProfileStep(pl: Plane, failing: set<nat>, cfg: TM.ProfileConfig): (Plane, bool)
  {
    var key := KeyOf(cfg);
    var ok := Admits(pl, failing);
    var stored :=
      if key in pl.profiles then pl.profiles[key].(config := cfg)
      else RemoteProfile(cfg, cfg.profileName + FqdnSuffix, []);
    (Logged(pl, CreateProfileOp, key, ok, if ok then pl.profiles[key := stored] else pl.profiles), ok)
  }

  /** GetProfile: succeeds when the profile exists. */
  function GetProfileStep(pl: Plane, failing: set<nat>, key: Key): (Plane, bool)
  {
    var ok := Admits(pl, failing) && key in pl.profiles;
    (Logged(pl, GetProfileOp, key, ok, pl.profiles), ok)
  }

  /** UpdateProfile: needs the profile to exist; replaces its settings, keeping its name and endpoints. */
  function UpdateProfileStep(pl: Plane, failing: set<nat>, cfg: TM.ProfileConfig): (Plane, bool)
  {
    var key := KeyOf(cfg);
    var ok := Admits(pl, failing) && key in pl.profiles;
    (Logged(pl, UpdateProfileOp, key, ok, if ok then pl.profiles[key := pl.profiles[key].(config := cfg)] else pl.profiles), ok)
  }

  /** DeleteProfile: needs the profile to exist; removes it with its endpoints. */
  function DeleteProfileStep(pl: Plane, failing: set<nat>, key: Key): (Plane, bool)
  {
    var ok := Admits(pl, failing) && key in pl.profiles;
    (Logged(pl, DeleteProfileOp, key, ok, if ok then pl.profiles - {key} else pl.profiles), ok)
  }

  /** GetProfileState: the stored profile read back through profileToState. */
  function GetProfileStateStep(pl: Plane, failing: set<nat>, key: Key, now: nat): (Plane, Option<ProfileState>)
  {
    var ok := Admits(pl, failing) && key in pl.profiles;
    (Logged(pl, GetProfileStateOp, key, ok, pl.profiles),
     if ok then Some(StateOf(key.resourceGroup, SdkView(key, pl.profiles[key]), now)) else None)
  }

  /** The two endpoint upserts: CreateEndpoint sends the location for external endpoints, UpdateEndpoint only when it is non-empty. */
  function EndpointUpsertStep(pl: Plane, failing: set<nat>, op: Op, key: Key, e: SdkEndpoint, now: nat)
    : (Plane, Option<TM.EndpointState>)
    requires op.CreateEndpointOp? || op.UpdateEndpointOp?
  {
    var ok := Admits(pl, failing) && key in pl.profiles;
    var stored := if key in pl.profiles then pl.profiles[key].(endpoints := Upserted(pl.profiles[key].endpoints, op.endpointName, e)) else RemoteProfile(TM.DefaultProfileConfig(), "", []);
    (Logged(pl, op, key, ok, if ok then pl.profiles[key := stored] else pl.profiles),
     if ok then Some(EndpointResponse(e, now)) else None)
  }

  function CreateEndpointStep(pl: Plane, failing: set<nat>, key: Key, cfg: TM.EndpointConfig, now: nat)
    : (Plane, Option<TM.EndpointState>)
  {
    EndpointUpsertStep(pl, failing, CreateEndpointOp(cfg.endpointName), key,
      SdkEndpointOf(cfg, cfg.endpointType == TM.ExternalEndpoints), now)
  }

  function UpdateEndpointStep(pl: Plane, failing: set<nat>, key: Key, cfg: TM.EndpointConfig, now: nat)
    : (Plane, Option<TM.EndpointState>)
  {
    EndpointUpsertStep(pl, failing, UpdateEndpointOp(cfg.endpointName), key,
      SdkEndpointOf(cfg, cfg.endpointType == TM.ExternalEndpoints && cfg.location != ""), now)
  }

  /** DeleteEndpoint: needs the profile to exist; removes the named endpoint, present or not. */
  function DeleteEndpointStep(pl: Plane, failing: set<nat>, key: Key, endpointName: string): (Plane, bool)
  {
    var ok := Admits(pl, failing) && key in pl.profiles;
    var stored := if key in pl.profiles then pl.profiles[key].(endpoints := RemoveNamed(pl.profiles[key].endpoints, endpointName)) else RemoteProfile(TM.DefaultProfileConfig(), "", []);
    (Logged(pl, DeleteEndpointOp(endpointName), key, ok, if ok then pl.profiles[key := stored] else pl.profiles), ok)
  }

  // ------------------------------------------------------------- the store

  class ControlPlane {
    var profiles: map<Key, RemoteProfile>
    /** The number of calls issued so far. */
    var issued: nat
    /** The failure oracle: the numbers of the calls that fail. */
    const failing: set<nat>
    ghost var log: seq<Call>

    ghost predicate Valid()
      reads this
    {
      issued == |log|
    }

    ghost function View(): Plane
      reads this
    {
      Plane(profiles, log)
    }

    constructor(initial: map<Key, RemoteProfile>, failing: set<nat>)
      ensures Valid() && View() == Plane(initial, []) && this.failing == failing
    {
      profiles := initial;
      issued := 0;
      this.failing := failing;
      log := [];
    }

    /** Numbers the call and asks the oracle whether it goes through. */
    method Next(op: Op, key: Key, ok: bool)
      requires Valid()
      modifies this
      ensures Valid() && profiles == old(profiles) && log == old(log) + [Call(op, key, ok)]
    {
      issued := issued + 1;
      log := log + [Call(op, key, ok)];
    }

    method CreateProfile(cfg: TM.ProfileConfig) returns (ok: bool)
      requires Valid()
      modifies this
      ensures Valid() && (View(), ok) == CreateProfileStep(old(View()), failing, cfg)
    {
      var key := KeyOf(cfg);
      ok := issued !in failing;
      if ok {
        var stored :=
          if key in profiles then profiles[key].(config := cfg)
          else RemoteProfile(cfg, cfg.profileName + FqdnSuffix, []);
        profiles := profiles[key := stored];
      }
      Next(CreateProfileOp, key, ok);
    }

    method GetProfile(resourceGroup: string, profileName: string) returns (ok: bool)
      requires Valid()
      modifies this
      ensures Valid() && (View(), ok) == GetProfileStep(old(View()), failing, Key(resourceGroup, profileName))
    {
      var key := Key(resourceGroup, profileName);
      ok := issued !in failing && key in profiles;
      Next(GetProfileOp, key, ok);
    }

    method UpdateProfile(cfg: TM.ProfileConfig) returns (ok: bool)
      requires Valid()
      modifies this
      ensures Valid() && (View(), ok) == UpdateProfileStep(old(View()), failing, cfg)
    {
      var key := KeyOf(cfg);
      ok := issued !in failing && key in profiles;
      if ok {
        profiles := profiles[key := profiles[key].(config := cfg)];
      }
      Next(UpdateProfileOp, key, ok);
    }

    method DeleteProfile(resourceGroup: string, profileName: string) returns (ok: bool)
      requires Valid()
      modifies this
      ensures Valid() && (View(), ok) == DeleteProfileStep(old(View()), failing, Key(resourceGroup, profileName))
    {
      var key := Key(resourceGroup, profileName);
      ok := issued !in failing && key in profiles;
      if ok {
        profiles := profiles - {key};
      }
      Next(DeleteProfileOp, key, ok);
    }

    /** GetProfileState (pkg/trafficmanager/sync.go): a read of the profile converted by profileToState. */
    method GetProfileState(resourceGroup: string, profileName: string, now: nat) returns (r: Option<ProfileState>)
      requires Valid()
      modifies this
      ensures Valid() && (View(), r) == GetProfileStateStep(old(View()), failing, Key(resourceGroup, profileName), now)
    {
      var key := Key(resourceGroup, profileName);
      var ok := issued !in failing && key in profiles;
      r := None;
      if ok {
        var s := ProfileToState(resourceGroup, SdkView(key, profiles[key]), now);
        r := Some(s);
      }
      Next(GetProfileStateOp, key, ok);
    }

    method CreateEndpoint(resourceGroup: string, profileName: string, cfg: TM.EndpointConfig, now: nat)
      returns (r: Option<TM.EndpointState>)
      requires Valid()
      modifies this
      ensures Valid() && (View(), r) == CreateEndpointStep(old(View()), failing, Key(resourceGroup, profileName), cfg, now)
    {
      var key := Key(resourceGroup, profileName);
      var e := SdkEndpointOf(cfg, cfg.endpointType == TM.ExternalEndpoints);
      var ok := issued !in failing && key in profiles;
      r := None;
      if ok {
        profiles := profiles[key := profiles[key].(endpoints := Upserted(profiles[key].endpoints, cfg.endpointName, e))];
        r := Some(EndpointResponse(e, now));
      }
      Next(CreateEndpointOp(cfg.endpointName), key, ok);
    }

    method UpdateEndpoint(resourceGroup: string, profileName: string, cfg: TM.EndpointConfig, now: nat)
      returns (r: Option<TM.EndpointState>)
      requires Valid()
      modifies this
      ensures Valid() && (View(), r) == UpdateEndpointStep(old(View()), failing, Key(resourceGroup, profileName), cfg, now)
    {
      var key := Key(resourceGroup, profileName);
      var e := SdkEndpointOf(cfg, cfg.endpointType == TM.ExternalEndpoints && cfg.location != "");
      var ok := issued !in failing && key in profiles;
      r := None;
      if ok {
        profiles := profiles[key := profiles[key].(endpoints := Upserted(profiles[key].endpoints, cfg.endpointName, e))];
        r := Some(EndpointResponse(e, now));
      }
      Next(UpdateEndpointOp(cfg.endpointName), key, ok);
    }

    method DeleteEndpoint(resourceGroup: string, profileName: string, endpointName: string) returns (ok: bool)
      requires Valid()
      modifies this
      ensures Valid() && (View(), ok) == DeleteEndpointStep(old(View()), failing, Key(resourceGroup, profileName), endpointName)
    {
      var key := Key(resourceGroup, profileName);
      ok := issued !in failing && key in profiles;
      if ok {
        profiles := profiles[key := profiles[key].(endpoints := RemoveNamed(profiles[key].endpoints, endpointName))];
      }
      Next(DeleteEndpointOp(endpointName), key, ok);
    }
  }

  // -------------------------------------------------------------- lemmas

  /** Removing a name from the list removes exactly that key from the endpoint map. */
  lemma {:induction false} KeyedRemoveNamed(eps: seq<SdkEndpoint>, n: string, now: nat)
    ensures KeyedEndpoints(RemoveNamed(eps, n), now) == KeyedEndpoints(eps, now) - {n}
  {
    if |eps| > 0 {
      var init := eps[..|eps| - 1];
      var last := eps[|eps| - 1];
      KeyedRemoveNamed(init, n, now);
      if last.name != Some(n) {
        var r := RemoveNamed(init, n) + [last];
        assert r[..|r| - 1] == RemoveNamed(init, n);
      }
    }
  }

  /** An upsert writes exactly the one key of the endpoint map. */
  lemma KeyedUpserted(eps: seq<SdkEndpoint>, n: string, e: SdkEndpoint, now: nat)
    requires e.name == Some(n)
    ensures KeyedEndpoints(Upserted(eps, n, e), now) == KeyedEndpoints(eps, now)[n := EndpointToState(e, now)]
  {
    KeyedRemoveNamed(eps, n, now);
    var r := Upserted(eps, n, e);
    assert r[..|r| - 1] == RemoveNamed(eps, n);
  }

  /** A call the oracle fails reports failure and leaves every stored profile as it was. */
  lemma FailingCallsChangeNothing(pl: Plane, failing: set<nat>, key: Key, pc: TM.ProfileConfig, ec: TM.EndpointConfig, name: string, now: nat)
    requires !Admits(pl, failing)
    ensures CreateProfileStep(pl, failing, pc) == (Logged(pl, CreateProfileOp, KeyOf(pc), false, pl.profiles), false)
    ensures UpdateProfileStep(pl, failing, pc).0.profiles == pl.profiles && !UpdateProfileStep(pl, failing, pc).1
    ensures DeleteProfileStep(pl, failing, key).0.profiles == pl.profiles && !DeleteProfileStep(pl, failing, key).1
    ensures GetProfileStateStep(pl, failing, key, now).1 == None
    ensures CreateEndpointStep(pl, failing, key, ec, now).0.profiles == pl.profiles && CreateEndpointStep(pl, failing, key, ec, now).1 == None
    ensures UpdateEndpointStep(pl, failing, key, ec, now).0.profiles == pl.profiles && UpdateEndpointStep(pl, failing, key, ec, now).1 == None
    ensures DeleteEndpointStep(pl, failing, key, name).0.profiles == pl.profiles && !DeleteEndpointStep(pl, failing, key, name).1
  {
  }

  /** Every call appends exactly one entry to the log, recording its operation, key and outcome. */
  lemma CallsAreLogged(pl: Plane, failing: set<nat>, key: Key, ec: TM.EndpointConfig, now: nat)
    ensures var (pl', ok) := GetProfileStep(pl, failing, key); pl'.log == pl.log + [Call(GetProfileOp, key, ok)]
    ensures var (pl', r) := GetProfileStateStep(pl, failing, key, now);
      pl'.log == pl.log + [Call(GetProfileStateOp, key, r.Some?)] && pl'.profiles == pl.profiles
    ensures var (pl', r) := CreateEndpointStep(pl, failing, key, ec, now);
      pl'.log == pl.log + [Call(CreateEndpointOp(ec.endpointName), key, r.Some?)]
  {
  }

  /** After a successful endpoint create, a refresh of the profile sees the endpoint under its name and the other endpoints unchanged. */
  lemma RefreshSeesCreatedEndpoint(pl: Plane, failing: set<nat>, key: Key, cfg: TM.EndpointConfig, now: nat, later: nat)
    requires CreateEndpointStep(pl, failing, key, cfg, now).1.Some?
    requires Admits(CreateEndpointStep(pl, failing, key, cfg, now).0, failing)
    ensures var pl' := CreateEndpointStep(pl, failing, key, cfg, now).0;
      var s := GetProfileStateStep(pl', failing, key, later).1;
      && s.Some?
      && s.value.endpoints == KeyedEndpoints(pl.profiles[key].endpoints, later)[cfg.endpointName :=
           EndpointToState(SdkEndpointOf(cfg, cfg.endpointType == TM.ExternalEndpoints), later)]
  {
    var e := SdkEndpointOf(cfg, cfg.endpointType == TM.ExternalEndpoints);
    KeyedUpserted(pl.profiles[key].endpoints, cfg.endpointName, e, later);
  }

  /** A profile created from settings carrying the webhook's managedBy tag lists as managed, and reads back its hostname tag. */
  lemma CreatedProfileReadsBack(pl: Plane, failing: set<nat>, cfg: TM.ProfileConfig, now: nat)
    requires CreateProfileStep(pl, failing, cfg).1
    requires Admits(CreateProfileStep(pl, failing, cfg).0, failing)
    ensures var pl' := CreateProfileStep(pl, failing, cfg).0;
      var s := GetProfileStateStep(pl', failing, KeyOf(cfg), now).1;
      && s.Some?
      && s.value.profileName == cfg.profileName && s.value.resourceGroup == cfg.resourceGroup
      && s.value.routingMethod == cfg.routingMethod && s.value.dnsTtl == cfg.dnsTtl
      && s.value.tags == cfg.tags
      && s.value.hostname == (if HostnameTag in cfg.tags then cfg.tags[HostnameTag] else "")
      && (KeyOf(cfg) !in pl.profiles ==> s.value.fqdn == cfg.profileName + FqdnSuffix && s.value.endpoints == map[])
      && (KeyOf(cfg) in pl.profiles ==> s.value.fqdn == pl.profiles[KeyOf(cfg)].fqdn)
  {
    var pl' := CreateProfileStep(pl, failing, cfg).0;
    var view := SdkView(KeyOf(cfg), pl'.profiles[KeyOf(cfg)]);
    StateOfTags(cfg.resourceGroup, view, now);
    assert CopiedTags(ToStringMapPtr(cfg.tags)) == cfg.tags;
  }

  /** Once DeleteProfile succeeds, the profile can no longer be read. */
  lemma DeletedProfileIsGone(pl: Plane, failing: set<nat>, key: Key, now: nat)
    requires DeleteProfileStep(pl, failing, key).1
    ensures GetProfileStateStep(DeleteProfileStep(pl, failing, key).0, failing, key, now).1 == None
    ensures !GetProfileStep(DeleteProfileStep(pl, failing, key).0, failing, key).1
  {
  }
}

/**
 * The reconciliation engine (pkg/provider/provider.go): createEndpoint,
 * updateEndpoint, deleteEndpoint, ApplyChanges, Records and
 * AdjustEndpoints, run against the in-memory control plane and the state
 * mirror. Each operation is specified by a run function on the world as a
 * value (control plane, mirror, requested CNAME changes); the class's
 * methods are proved to perform exactly that run.
 */
module Provider {
  import opened Wrappers
  import opened State
  import opened StateManager
  import opened Sync
  import opened Remote
  import opened ProviderPlan
  import opened Annotations
  import opened Validator
  import opened Naming
  import DomainFilter
  import DnsEndpoint
  import TM = TrafficManager

  /** The TTL of every CNAME this provider asks for, in seconds. */
  const CnameTtl: int := 300

  /** The DNSEndpoint changes requested of the Kubernetes collaborator; their outcome never reaches the caller. */
  datatype CnameEvent =
    | PublishCname(resourceName: string, hostname: string, target: string, ttl: int)
    | DeleteCname(resourceName: string)

  datatype World = World(plane: Plane, mirror: map<string, ProfileState>, cnames: seq<CnameEvent>)

  /** nil, or the error an operation returns. */
  type Outcome = Option<ProviderError>

  /** convertToStateEndpoint: all nine fields carried over. */
  function ConvertToStateEndpoint(t: TM.EndpointState): (s: EndpointState)
    ensures s.endpointName == t.endpointName && s.endpointType == t.endpointType && s.target == t.target
    ensures s.weight == t.weight && s.priority == t.priority && s.status == t.status && s.location == t.location
    ensures s.createdAt == t.createdAt && s.updatedAt == t.updatedAt
  {
    EndpointState(t.endpointName, t.endpointType, t.target, t.weight, t.priority, t.status, t.location, t.createdAt, t.updatedAt)
  }

  /** What an endpoint call hands back is what a later read of the profile reports for that endpoint. */
  lemma ConvertedResponseMatchesRefresh(e: SdkEndpoint, now: nat)
    requires e.name.Some?
    ensures ConvertToStateEndpoint(EndpointResponse(e, now)) == EndpointToState(e, now)
  {
  }

  /** AdjustEndpoints: every endpoint passes through unchanged. */
  function AdjustEndpoints(endpoints: seq<Endpoint>): (r: seq<Endpoint>)
    ensures r == endpoints
  {
    endpoints
  }

  // ------------------------------------------------ the mirror as a value

  function MirrorSetEndpoint(m: map<string, ProfileState>, h: string, name: string, e: EndpointState, now: nat): map<string, ProfileState>
  {
    if h in m then m[h := WithEndpoint(m[h], name, e, now)] else m
  }

  function MirrorDeleteEndpoint(m: map<string, ProfileState>, h: string, name: string, now: nat): map<string, ProfileState>
  {
    if h in m then m[h := WithoutEndpoint(m[h], name, now)] else m
  }

  // ------------------------------------------------------- endpoint loops

  function UpsertStep(pl: Plane, failing: set<nat>, create: bool, key: Key, e: TM.EndpointConfig, now: nat): (Plane, Option<TM.EndpointState>)
  {
    if create then CreateEndpointStep(pl, failing, key, e, now) else UpdateEndpointStep(pl, failing, key, e, now)
  }

  function UpsertOp(create: bool, name: string): Op
  {
    if create then CreateEndpointOp(name) else UpdateEndpointOp(name)
  }

  /**
   * The per-target loop of createEndpoint (create) or updateEndpoint: each
   * endpoint is upserted and, on success, written to the mirror under
   * hostname; the first failure stops the loop and names the endpoint.
   */
  function UpsertEndpointsRun(w: World, failing: set<nat>, create: bool, key: Key, hostname: string, eps: seq<TM.EndpointConfig>, now: nat)
    : (World, Option<string>)
  {
    if |eps| == 0 then (w, None)
    else
      var (w1, failed) := UpsertEndpointsRun(w, failing, create, key, hostname, eps[..|eps| - 1], now);
      if failed.Some? then (w1, failed)
      else UpsertOne(w1, failing, create, key, hostname, eps[|eps| - 1], now)
  }

  /** One pass of the loop: the upsert, then on success the mirror write. */
  function UpsertOne(w: World, failing: set<nat>, create: bool, key: Key, hostname: string, e: TM.EndpointConfig, now: nat)
    : (World, Option<string>)
  {
    var (pl, r) := UpsertStep(w.plane, failing, create, key, e, now);
    if r.None? then (w.(plane := pl), Some(e.endpointName))
    else (w.(plane := pl, mirror := MirrorSetEndpoint(w.mirror, hostname, e.endpointName, ConvertToStateEndpoint(r.value), now)), None)
  }

  lemma UpsertRunNext(w: World, failing: set<nat>, create: bool, key: Key, hostname: string, eps: seq<TM.EndpointConfig>, now: nat, i: nat)
    requires i < |eps| && UpsertEndpointsRun(w, failing, create, key, hostname, eps[..i], now).1.None?
    ensures UpsertEndpointsRun(w, failing, create, key, hostname, eps[..i + 1], now) ==
      UpsertOne(UpsertEndpointsRun(w, failing, create, key, hostname, eps[..i], now).0, failing, create, key, hostname, eps[i], now)
  {
    assert eps[..i + 1][..i] == eps[..i];
  }

  /** Once the loop has failed, later endpoints are never attempted. */
  lemma {:induction false} UpsertRunStops(w: World, failing: set<nat>, create: bool, key: Key, hostname: string, eps: seq<TM.EndpointConfig>, now: nat, k: nat)
    requires k <= |eps| && UpsertEndpointsRun(w, failing, create, key, hostname, eps[..k], now).1.Some?
    ensures UpsertEndpointsRun(w, failing, create, key, hostname, eps, now) == UpsertEndpointsRun(w, failing, create, key, hostname, eps[..k], now)
    decreases |eps| - k
  {
    if k < |eps| {
      assert eps[..|eps| - 1][..k] == eps[..k];
      UpsertRunStops(w, failing, create, key, hostname, eps[..|eps| - 1], now, k);
    } else {
      assert eps[..k] == eps;
    }
  }

  /** The log entries of a loop in which every call succeeded. */
  function OkCalls(create: bool, key: Key, eps: seq<TM.EndpointConfig>): seq<Call>
  {
    if |eps| == 0 then []
    else OkCalls(create, key, eps[..|eps| - 1]) + [Call(UpsertOp(create, eps[|eps| - 1].endpointName), key, true)]
  }

  /**
   * The loop issues one call per endpoint, in order, each on the same
   * profile; when one fails it is the last call, and the endpoint it names
   * is the one reported.
   */
  lemma {:induction false} UpsertRunLog(w: World, failing: set<nat>, create: bool, key: Key, hostname: string, eps: seq<TM.EndpointConfig>, now: nat)
    ensures var (w', failed) := UpsertEndpointsRun(w, failing, create, key, hostname, eps, now);
      && (failed.None? ==> w'.plane.log == w.plane.log + OkCalls(create, key, eps))
      && (failed.Some? ==> exists k :: (0 <= k < |eps| && failed.value == eps[k].endpointName &&
            w'.plane.log == w.plane.log + OkCalls(create, key, eps[..k]) + [Call(UpsertOp(create, eps[k].endpointName), key, false)]))
      && w'.cnames == w.cnames
  {
    if |eps| > 0 {
      var init := eps[..|eps| - 1];
      UpsertRunLog(w, failing, create, key, hostname, init, now);
      var (w1, f1) := UpsertEndpointsRun(w, failing, create, key, hostname, init, now);
      if f1.Some? {
        var k :| 0 <= k < |init| && f1.value == init[k].endpointName &&
          w1.plane.log == w.plane.log + OkCalls(create, key, init[..k]) + [Call(UpsertOp(create, init[k].endpointName), key, false)];
        assert init[..k] == eps[..k] && init[k] == eps[k];
      } else {
        var (w', failed) := UpsertEndpointsRun(w, failing, create, key, hostname, eps, now);
        if failed.Some? {
          assert eps[..|eps| - 1] == init;
          assert w'.plane.log == w.plane.log + OkCalls(create, key, eps[..|eps| - 1]) + [Call(UpsertOp(create, eps[|eps| - 1].endpointName), key, false)];
        }
      }
    }
  }

  /** Whether the call sends the endpoint's location: CreateEndpoint for every external endpoint, UpdateEndpoint only for a non-empty one. */
  predicate SendsLocation(create: bool, e: TM.EndpointConfig)
  {
    e.endpointType == TM.ExternalEndpoints && (create || e.location != "")
  }

  /** The endpoint map the loop leaves at key when every call succeeds: each endpoint written in order. */
  function Registered(m: map<string, EndpointState>, create: bool, eps: seq<TM.EndpointConfig>, now: nat): map<string, EndpointState>
  {
    if |eps| == 0 then m
    else
      var e := eps[|eps| - 1];
      Registered(m, create, eps[..|eps| - 1], now)[e.endpointName := EndpointToState(SdkEndpointOf(e, SendsLocation(create, e)), now)]
  }

  /** A loop without failures leaves the profile at key holding its old endpoints with every endpoint of the loop written over them. */
  lemma {:induction false} UpsertRunRegisters(w: World, failing: set<nat>, create: bool, key: Key, hostname: string, eps: seq<TM.EndpointConfig>, now: nat, later: nat)
    requires key in w.plane.profiles
    requires UpsertEndpointsRun(w, failing, create, key, hostname, eps, now).1.None?
    ensures var w' := UpsertEndpointsRun(w, failing, create, key, hostname, eps, now).0;
      && key in w'.plane.profiles
      && w'.plane.profiles[key].config == w.plane.profiles[key].config
      && w'.plane.profiles[key].fqdn == w.plane.profiles[key].fqdn
      && KeyedEndpoints(w'.plane.profiles[key].endpoints, later) == Registered(KeyedEndpoints(w.plane.profiles[key].endpoints, later), create, eps, later)
  {
    if |eps| > 0 {
      var init := eps[..|eps| - 1];
      UpsertRunRegisters(w, failing, create, key, hostname, init, now, later);
      var w1 := UpsertEndpointsRun(w, failing, create, key, hostname, init, now).0;
      var e := eps[|eps| - 1];
      KeyedUpserted(w1.plane.profiles[key].endpoints, e.endpointName, SdkEndpointOf(e, SendsLocation(create, e)), later);
    }
  }

  /** With pairwise distinct names, every endpoint of the loop is registered with its own settings. */
  lemma {:induction false} RegisteredHoldsEach(m: map<string, EndpointState>, create: bool, eps: seq<TM.EndpointConfig>, now: nat, i: nat)
    requires i < |eps|
    requires forall a, b :: 0 <= a < b < |eps| ==> eps[a].endpointName != eps[b].endpointName
    ensures eps[i].endpointName in Registered(m, create, eps, now)
    ensures Registered(m, create, eps, now)[eps[i].endpointName] == EndpointToState(SdkEndpointOf(eps[i], SendsLocation(create, eps[i])), now)
  {
    if i < |eps| - 1 {
      var init := eps[..|eps| - 1];
      assert init[i] == eps[i];
      forall a, b | 0 <= a < b < |init| ensures init[a].endpointName != init[b].endpointName {
        assert init[a] == eps[a] && init[b] == eps[b];
      }
      RegisteredHoldsEach(m, create, init, now, i);
    }
  }

  // --------------------------------------------------------------- create

  /** The refresh after the endpoint loop: the profile is re-read, stored under the vanity hostname, and its CNAME requested. */
  function RefreshAfterCreate(w: World, failing: set<nat>, key: Key, vanity: string, dnsName: string, now: nat): World
  {
    var (pl, s) := GetProfileStateStep(w.plane, failing, key, now);
    if s.None? then w.(plane := pl)
    else
      var stored := s.value.(hostname := vanity);
      World(pl, w.mirror[vanity := Stamped(stored, now)],
        if vanity != "" && vanity != dnsName && stored.fqdn != "" then
          w.cnames + [PublishCname(DnsEndpoint.CnameName(vanity), vanity, stored.fqdn, CnameTtl)]
        else w.cnames)
  }

  /** CreateProfile, and GetProfile when that fails: whether the profile can be used. */
  function EnsureProfileStep(pl: Plane, failing: set<nat>, cfg: TM.ProfileConfig): (Plane, bool)
  {
    var (pl1, created) := CreateProfileStep(pl, failing, cfg);
    if created then (pl1, true) else GetProfileStep(pl1, failing, KeyOf(cfg))
  }

  /**
   * The profile step finds the profile when CreateProfile succeeds, or when
   * it fails but the profile already exists and the GetProfile call after it
   * succeeds; it logs those calls and changes no profile when it finds none.
   */
  lemma EnsureProfileFound(pl: Plane, failing: set<nat>, cfg: TM.ProfileConfig)
    ensures var (pl', found) := EnsureProfileStep(pl, failing, cfg);
      && (found <==> Admits(pl, failing) || (KeyOf(cfg) in pl.profiles && |pl.log| + 1 !in failing))
      && pl'.log == pl.log + ProfileCalls(KeyOf(cfg), Admits(pl, failing), found)
      && (!found ==> pl'.profiles == pl.profiles)
  {
  }

  /** createEndpoint from its first remote call on. */
  function ProceedCreate(w: World, failing: set<nat>, dnsName: string, p: CreatePlan, now: nat): (World, Outcome)
  {
    var key := KeyOf(p.profile);
    var (pl2, found) := EnsureProfileStep(w.plane, failing, p.profile);
    if !found then (w.(plane := pl2), Some(ProfileUnavailable(key)))
    else
      var (w3, failed) := UpsertEndpointsRun(w.(plane := pl2), failing, true, key, p.vanity, p.endpoints, now);
      if failed.Some? then (w3, Some(EndpointCreateFailed(failed.value)))
      else (RefreshAfterCreate(w3, failing, key, p.vanity, dnsName, now), None)
  }

  function CreateRun(w: World, failing: set<nat>, ep: Endpoint, now: nat): (World, Outcome)
  {
    match PlanCreate(ep)
    case Skip => (w, None)
    case Reject(e) => (w, Some(e))
    case Proceed(p) => ProceedCreate(w, failing, ep.dnsName, p, now)
  }

  /** The log entries of the profile step: CreateProfile, then GetProfile when the create failed. */
  function ProfileCalls(key: Key, created: bool, found: bool): seq<Call>
  {
    if created then [Call(CreateProfileOp, key, true)] else [Call(CreateProfileOp, key, false), Call(GetProfileOp, key, found)]
  }

  /** A skipped or rejected create issues no call and changes nothing. */
  lemma CreateWithoutPlanTouchesNothing(w: World, failing: set<nat>, ep: Endpoint, now: nat)
    requires !PlanCreate(ep).Proceed?
    ensures CreateRun(w, failing, ep, now).0 == w
    ensures CreateRun(w, failing, ep, now).1 == if PlanCreate(ep).Skip? then None else Some(PlanCreate(ep).error)
  {
  }

  /**
   * A create that goes ahead starts with CreateProfile on the planned
   * profile. It reports ProfileUnavailable exactly when that call fails and
   * the GetProfile after it does not find the profile. Once the profile is
   * found it succeeds exactly when every planned endpoint is created, whatever
   * the refresh returns; a success logs the profile step, one call per
   * endpoint in order, and one refresh.
   */
  lemma CreateRunLog(w: World, failing: set<nat>, ep: Endpoint, now: nat, p: CreatePlan)
    requires PlanCreate(ep) == Proceed(p)
    ensures var (w', r) := CreateRun(w, failing, ep, now);
      var key := KeyOf(p.profile);
      && |w'.plane.log| > |w.plane.log|
      && w'.plane.log[|w.plane.log|] == Call(CreateProfileOp, key, CreateProfileStep(w.plane, failing, p.profile).1)
      && (r.None? ==> exists created: bool :: (|w'.plane.log| > 0 &&
            w'.plane.log[..|w'.plane.log| - 1] == w.plane.log + ProfileCalls(key, created, true) + OkCalls(true, key, p.endpoints) &&
            w'.plane.log[|w'.plane.log| - 1].op == GetProfileStateOp))
      && (r.Some? ==> r.value.ProfileUnavailable? || r.value.EndpointCreateFailed?)
      && (r == Some(ProfileUnavailable(key)) <==>
            !Admits(w.plane, failing) && (key !in w.plane.profiles || |w.plane.log| + 1 in failing))
      && (EnsureProfileStep(w.plane, failing, p.profile).1 ==>
            (r.None? <==> UpsertEndpointsRun(w.(plane := EnsureProfileStep(w.plane, failing, p.profile).0),
                            failing, true, key, p.vanity, p.endpoints, now).1.None?))
  {
    assert CreateRun(w, failing, ep, now) == ProceedCreate(w, failing, ep.dnsName, p, now);
    ProceedCreateLog(w, failing, ep.dnsName, now, p);
  }

  /** CreateRunLog past the planning step. */
  lemma ProceedCreateLog(w: World, failing: set<nat>, dnsName: string, now: nat, p: CreatePlan)
    ensures var (w', r) := ProceedCreate(w, failing, dnsName, p, now);
      var key := KeyOf(p.profile);
      && |w'.plane.log| > |w.plane.log|
      && w'.plane.log[|w.plane.log|] == Call(CreateProfileOp, key, CreateProfileStep(w.plane, failing, p.profile).1)
      && (r.None? ==> exists created: bool :: (|w'.plane.log| > 0 &&
            w'.plane.log[..|w'.plane.log| - 1] == w.plane.log + ProfileCalls(key, created, true) + OkCalls(true, key, p.endpoints) &&
            w'.plane.log[|w'.plane.log| - 1].op == GetProfileStateOp))
      && (r.Some? ==> r.value.ProfileUnavailable? || r.value.EndpointCreateFailed?)
      && (r == Some(ProfileUnavailable(key)) <==>
            !Admits(w.plane, failing) && (key !in w.plane.profiles || |w.plane.log| + 1 in failing))
      && (EnsureProfileStep(w.plane, failing, p.profile).1 ==>
            (r.None? <==> UpsertEndpointsRun(w.(plane := EnsureProfileStep(w.plane, failing, p.profile).0),
                            failing, true, key, p.vanity, p.endpoints, now).1.None?))
  {
    EnsureProfileFound(w.plane, failing, p.profile);
    ProceedCreateOutcome(w, failing, dnsName, now, p);
    ProceedCreateFirstCall(w, failing, dnsName, now, p);
    if ProceedCreate(w, failing, dnsName, p, now).1.None? {
      ProceedCreateOkLog(w, failing, dnsName, now, p);
    }
  }

  /**
   * How a create that has got past planning ends: ProfileUnavailable exactly
   * when the profile step finds no profile, in which case nothing but the
   * profile step happened; otherwise it succeeds exactly when the endpoint
   * loop does, whatever the refresh after it returns, and a failed loop is
   * reported with the endpoint it names.
   */
  lemma ProceedCreateOutcome(w: World, failing: set<nat>, dnsName: string, now: nat, p: CreatePlan)
    ensures var (w', r) := ProceedCreate(w, failing, dnsName, p, now);
      var key := KeyOf(p.profile);
      var (pl2, found) := EnsureProfileStep(w.plane, failing, p.profile);
      var (w3, failed) := UpsertEndpointsRun(w.(plane := pl2), failing, true, key, p.vanity, p.endpoints, now);
      && (r == Some(ProfileUnavailable(key)) <==> !found)
      && (!found ==> w' == w.(plane := pl2))
      && (found ==> (r.None? <==> failed.None?))
      && (found && failed.Some? ==> w' == w3 && r == Some(EndpointCreateFailed(failed.value)))
  {
  }

  /** The first call of a create is CreateProfile, and it fails only with one of two errors. */
  lemma ProceedCreateFirstCall(w: World, failing: set<nat>, dnsName: string, now: nat, p: CreatePlan)
    ensures var (w', r) := ProceedCreate(w, failing, dnsName, p, now);
      && |w'.plane.log| > |w.plane.log|
      && w'.plane.log[|w.plane.log|] == Call(CreateProfileOp, KeyOf(p.profile), CreateProfileStep(w.plane, failing, p.profile).1)
      && (r.Some? ==> r.value.ProfileUnavailable? || r.value.EndpointCreateFailed?)
  {
    var key := KeyOf(p.profile);
    var created := CreateProfileStep(w.plane, failing, p.profile).1;
    var (pl2, found) := EnsureProfileStep(w.plane, failing, p.profile);
    assert pl2.log == w.plane.log + ProfileCalls(key, created, found);
    var first := pl2.log[|w.plane.log|];
    if found {
      var w2 := w.(plane := pl2);
      UpsertRunLog(w2, failing, true, key, p.vanity, p.endpoints, now);
      var (w3, failed) := UpsertEndpointsRun(w2, failing, true, key, p.vanity, p.endpoints, now);
      LogGrows(pl2.log, w3.plane.log);
      if failed.None? {
        var w4 := RefreshAfterCreate(w3, failing, key, p.vanity, dnsName, now);
        assert w4.plane.log == w3.plane.log + [Call(GetProfileStateOp, key, Admits(w3.plane, failing) && key in w3.plane.profiles)];
        LogGrows(w3.plane.log, w4.plane.log);
      }
    }
  }

  /** A successful create logs the profile step, one call per endpoint, then the refresh. */
  lemma ProceedCreateOkLog(w: World, failing: set<nat>, dnsName: string, now: nat, p: CreatePlan)
    requires ProceedCreate(w, failing, dnsName, p, now).1.None?
    ensures var w' := ProceedCreate(w, failing, dnsName, p, now).0;
      exists created: bool :: (|w'.plane.log| > 0 &&
        w'.plane.log[..|w'.plane.log| - 1] == w.plane.log + ProfileCalls(KeyOf(p.profile), created, true) + OkCalls(true, KeyOf(p.profile), p.endpoints) &&
        w'.plane.log[|w'.plane.log| - 1].op == GetProfileStateOp)
  {
    var key := KeyOf(p.profile);
    var created := CreateProfileStep(w.plane, failing, p.profile).1;
    var (pl2, found) := EnsureProfileStep(w.plane, failing, p.profile);
    assert pl2.log == w.plane.log + ProfileCalls(key, created, found);
    var w2 := w.(plane := pl2);
    UpsertRunLog(w2, failing, true, key, p.vanity, p.endpoints, now);
    var (w3, failed) := UpsertEndpointsRun(w2, failing, true, key, p.vanity, p.endpoints, now);
    var w4 := RefreshAfterCreate(w3, failing, key, p.vanity, dnsName, now);
    assert ProceedCreate(w, failing, dnsName, p, now) == (w4, None);
    assert w4.plane.log == w3.plane.log + [Call(GetProfileStateOp, key, Admits(w3.plane, failing) && key in w3.plane.profiles)];
    assert w4.plane.log[..|w4.plane.log| - 1] == w3.plane.log;
  }

  /** Entries of a log that later calls extend stay where they are. */
  lemma LogGrows(log: seq<Call>, log': seq<Call>)
    requires |log| <= |log'| && log'[..|log|] == log
    ensures forall i :: 0 <= i < |log| ==> log'[i] == log[i]
  {
    assert forall i :: 0 <= i < |log| ==> log'[i] == log'[..|log|][i];
  }

  /**
   * After a successful create, the control plane holds the planned profile
   * with every planned endpoint under its own name and settings.
   */
  lemma CreateRegistersEndpoints(w: World, failing: set<nat>, ep: Endpoint, now: nat, p: CreatePlan, later: nat)
    requires PlanCreate(ep) == Proceed(p) && CreateRun(w, failing, ep, now).1.None?
    ensures var w' := CreateRun(w, failing, ep, now).0;
      && KeyOf(p.profile) in w'.plane.profiles
      && forall i :: 0 <= i < |p.endpoints| ==>
           var registered := KeyedEndpoints(w'.plane.profiles[KeyOf(p.profile)].endpoints, later);
           && p.endpoints[i].endpointName in registered
           && registered[p.endpoints[i].endpointName] ==
                EndpointToState(SdkEndpointOf(p.endpoints[i], p.endpoints[i].endpointType == TM.ExternalEndpoints), later)
  {
    assert CreateRun(w, failing, ep, now) == ProceedCreate(w, failing, ep.dnsName, p, now);
    var key := KeyOf(p.profile);
    var (pl2, found) := EnsureProfileStep(w.plane, failing, p.profile);
    assert found && key in pl2.profiles;
    var w2 := w.(plane := pl2);
    var (w3, failed) := UpsertEndpointsRun(w2, failing, true, key, p.vanity, p.endpoints, now);
    assert failed.None?;
    var w' := RefreshAfterCreate(w3, failing, key, p.vanity, ep.dnsName, now);
    assert CreateRun(w, failing, ep, now).0 == w';
    assert w'.plane.profiles == w3.plane.profiles;
    UpsertRunRegisters(w2, failing, true, key, p.vanity, p.endpoints, now, later);
    PlannedNamesDistinct(ep, p);
    forall i | 0 <= i < |p.endpoints|
      ensures var registered := KeyedEndpoints(w3.plane.profiles[key].endpoints, later);
        && p.endpoints[i].endpointName in registered
        && registered[p.endpoints[i].endpointName] ==
             EndpointToState(SdkEndpointOf(p.endpoints[i], p.endpoints[i].endpointType == TM.ExternalEndpoints), later)
    {
      RegisteredHoldsEach(KeyedEndpoints(pl2.profiles[key].endpoints, later), true, p.endpoints, later, i);
    }
  }

  /** The CNAME is requested only after a successful create, for a vanity hostname other than the record's name and a published profile. */
  lemma CnameOnlyForVanity(w: World, failing: set<nat>, ep: Endpoint, now: nat)
    ensures var (w', r) := CreateRun(w, failing, ep, now);
      w'.cnames != w.cnames ==>
        && PlanCreate(ep).Proceed? && r.None?
        && |w'.cnames| == |w.cnames| + 1
        && w'.cnames[|w.cnames|].PublishCname?
        && w'.cnames[|w.cnames|].hostname == PlanCreate(ep).plan.vanity
        && PlanCreate(ep).plan.vanity != ep.dnsName
        && w'.cnames[|w.cnames|].target != ""
        && w'.cnames[|w.cnames|].ttl == CnameTtl
  {
    if PlanCreate(ep).Proceed? {
      var p := PlanCreate(ep).plan;
      assert CreateRun(w, failing, ep, now) == ProceedCreate(w, failing, ep.dnsName, p, now);
      ProceedCreateCnames(w, failing, ep.dnsName, p, now);
    }
  }

  /** CnameOnlyForVanity past the planning step. */
  lemma ProceedCreateCnames(w: World, failing: set<nat>, dnsName: string, p: CreatePlan, now: nat)
    ensures var (w', r) := ProceedCreate(w, failing, dnsName, p, now);
      w'.cnames != w.cnames ==>
        && r.None?
        && |w'.cnames| == |w.cnames| + 1
        && w'.cnames[|w.cnames|].PublishCname?
        && w'.cnames[|w.cnames|].hostname == p.vanity
        && p.vanity != dnsName
        && w'.cnames[|w.cnames|].target != ""
        && w'.cnames[|w.cnames|].ttl == CnameTtl
  {
    var key := KeyOf(p.profile);
    var (pl2, found) := EnsureProfileStep(w.plane, failing, p.profile);
    if found {
      UpsertRunLog(w.(plane := pl2), failing, true, key, p.vanity, p.endpoints, now);
    }
  }

  /** The CNAME requests already made play no part in a create once it reaches the control plane. */
  lemma CreateIgnoresCnames(w: World, failing: set<nat>, dnsName: string, p: CreatePlan, now: nat, c: seq<CnameEvent>)
    ensures ProceedCreate(w.(cnames := c), failing, dnsName, p, now).1 == ProceedCreate(w, failing, dnsName, p, now).1
    ensures ProceedCreate(w.(cnames := c), failing, dnsName, p, now).0.plane == ProceedCreate(w, failing, dnsName, p, now).0.plane
    ensures ProceedCreate(w.(cnames := c), failing, dnsName, p, now).0.mirror == ProceedCreate(w, failing, dnsName, p, now).0.mirror
  {
    var key := KeyOf(p.profile);
    var (pl2, found) := EnsureProfileStep(w.plane, failing, p.profile);
    if found {
      var w2 := w.(plane := pl2);
      assert w.(cnames := c).(plane := pl2) == w2.(cnames := c);
      UpsertRunCnameFree(w2, failing, true, key, p.vanity, p.endpoints, now, c);
    }
  }

  /** The endpoint loop neither reads nor writes the CNAME requests. */
  lemma {:induction false} UpsertRunCnameFree(w: World, failing: set<nat>, create: bool, key: Key, hostname: string, eps: seq<TM.EndpointConfig>, now: nat, c: seq<CnameEvent>)
    ensures var (w1, f1) := UpsertEndpointsRun(w, failing, create, key, hostname, eps, now);
      UpsertEndpointsRun(w.(cnames := c), failing, create, key, hostname, eps, now) == (w1.(cnames := c), f1)
  {
    if |eps| > 0 {
      UpsertRunCnameFree(w, failing, create, key, hostname, eps[..|eps| - 1], now, c);
    }
  }

  // --------------------------------------------------------------- update

  /** The refresh after an update: the profile is re-read and stored under the record's name. */
  function RefreshAfterUpdate(w: World, failing: set<nat>, key: Key, hostname: string, now: nat): World
  {
    var (pl, s) := GetProfileStateStep(w.plane, failing, key, now);
    if s.None? then w.(plane := pl)
    else w.(plane := pl, mirror := w.mirror[hostname := Stamped(s.value.(hostname := hostname), now)])
  }

  /** The endpoint settings updateEndpoint sends, one per target. */
  function TargetConfigs(c: Config, targets: seq<string>): (r: seq<TM.EndpointConfig>)
    ensures |r| == |targets|
    ensures forall i :: 0 <= i < |targets| ==> r[i] == ToEndpointConfig(c, targets[i])
  {
    seq(|targets|, i requires 0 <= i < |targets| => ToEndpointConfig(c, targets[i]))
  }

  /** updateEndpoint from its first remote call on. */
  function ProceedUpdate(w: World, failing: set<nat>, p: UpdatePlan, now: nat): (World, Outcome)
  {
    var key := KeyOf(p.profile);
    var (pl1, ok) := if p.profileChanged then UpdateProfileStep(w.plane, failing, p.profile) else (w.plane, true);
    if !ok then (w.(plane := pl1), Some(ProfileUpdateFailed(key)))
    else
      var (w2, failed) :=
        if p.endpointsChanged then UpsertEndpointsRun(w.(plane := pl1), failing, false, key, p.hostname, p.endpoints, now)
        else (w.(plane := pl1), None);
      if failed.Some? then (w2, Some(EndpointUpdateFailed(failed.value)))
      else (RefreshAfterUpdate(w2, failing, key, p.hostname, now), None)
  }

  function UpdateRun(w: World, failing: set<nat>, oldEp: Endpoint, newEp: Endpoint, now: nat): (World, Outcome)
  {
    match PlanUpdate(oldEp, newEp)
    case Skip => (w, None)
    case Reject(e) => (w, Some(e))
    case Proceed(p) => ProceedUpdate(w, failing, p, now)
  }

  /**
   * An update that goes ahead fails with ProfileUpdateFailed exactly when the
   * plan re-sends the profile and UpdateProfile fails; then that is the only
   * call and the mirror is untouched. Otherwise it fails exactly when the plan
   * re-sends the endpoints and the loop fails, with the log of the loop up to
   * the failing endpoint, which it names. A successful update issues
   * UpdateProfile exactly when the plan says the profile changed, then one
   * UpdateEndpoint per target exactly when the plan says the endpoints
   * changed, then one refresh.
   */
  lemma UpdateRunLog(w: World, failing: set<nat>, oldEp: Endpoint, newEp: Endpoint, now: nat, p: UpdatePlan)
    requires PlanUpdate(oldEp, newEp) == Proceed(p)
    ensures var (w', r) := UpdateRun(w, failing, oldEp, newEp, now);
      var key := KeyOf(p.profile);
      var profileOk := !p.profileChanged || (Admits(w.plane, failing) && key in w.plane.profiles);
      var sent := if p.profileChanged then [Call(UpdateProfileOp, key, true)] else [];
      var pl1 := if p.profileChanged then UpdateProfileStep(w.plane, failing, p.profile).0 else w.plane;
      && (r.None? ==>
            && |w'.plane.log| > 0
            && w'.plane.log[..|w'.plane.log| - 1] == w.plane.log + sent
                 + (if p.endpointsChanged then OkCalls(false, key, p.endpoints) else [])
            && w'.plane.log[|w'.plane.log| - 1].op == GetProfileStateOp)
      && (r == Some(ProfileUpdateFailed(key)) <==> !profileOk)
      && (!profileOk ==>
            w'.plane == w.plane.(log := w.plane.log + [Call(UpdateProfileOp, key, false)]) && w'.mirror == w.mirror)
      && (profileOk ==>
            (r.Some? <==> p.endpointsChanged && UpsertEndpointsRun(w.(plane := pl1), failing, false, key, p.hostname, p.endpoints, now).1.Some?))
      && (r.Some? && r.value.EndpointUpdateFailed? ==> exists k :: (0 <= k < |p.endpoints| &&
            r.value.endpointName == p.endpoints[k].endpointName &&
            w'.plane.log == w.plane.log + sent + OkCalls(false, key, p.endpoints[..k])
              + [Call(UpdateEndpointOp(p.endpoints[k].endpointName), key, false)]))
      && (r.Some? ==> r.value.ProfileUpdateFailed? || r.value.EndpointUpdateFailed?)
  {
    assert UpdateRun(w, failing, oldEp, newEp, now) == ProceedUpdate(w, failing, p, now);
    ProceedUpdateLog(w, failing, p, now);
  }

  /** UpdateRunLog past the planning step. */
  lemma ProceedUpdateLog(w: World, failing: set<nat>, p: UpdatePlan, now: nat)
    ensures var (w', r) := ProceedUpdate(w, failing, p, now);
      var key := KeyOf(p.profile);
      var profileOk := !p.profileChanged || (Admits(w.plane, failing) && key in w.plane.profiles);
      var sent := if p.profileChanged then [Call(UpdateProfileOp, key, true)] else [];
      var pl1 := if p.profileChanged then UpdateProfileStep(w.plane, failing, p.profile).0 else w.plane;
      && (r.None? ==>
            && |w'.plane.log| > 0
            && w'.plane.log[..|w'.plane.log| - 1] == w.plane.log + sent
                 + (if p.endpointsChanged then OkCalls(false, key, p.endpoints) else [])
            && w'.plane.log[|w'.plane.log| - 1].op == GetProfileStateOp)
      && (r == Some(ProfileUpdateFailed(key)) <==> !profileOk)
      && (!profileOk ==>
            w'.plane == w.plane.(log := w.plane.log + [Call(UpdateProfileOp, key, false)]) && w'.mirror == w.mirror)
      && (profileOk ==>
            (r.Some? <==> p.endpointsChanged && UpsertEndpointsRun(w.(plane := pl1), failing, false, key, p.hostname, p.endpoints, now).1.Some?))
      && (r.Some? && r.value.EndpointUpdateFailed? ==> exists k :: (0 <= k < |p.endpoints| &&
            r.value.endpointName == p.endpoints[k].endpointName &&
            w'.plane.log == w.plane.log + sent + OkCalls(false, key, p.endpoints[..k])
              + [Call(UpdateEndpointOp(p.endpoints[k].endpointName), key, false)]))
      && (r.Some? ==> r.value.ProfileUpdateFailed? || r.value.EndpointUpdateFailed?)
  {
    var key := KeyOf(p.profile);
    var (pl1, ok) := if p.profileChanged then UpdateProfileStep(w.plane, failing, p.profile) else (w.plane, true);
    assert pl1.log == w.plane.log + (if p.profileChanged then [Call(UpdateProfileOp, key, ok)] else []);
    if !ok {
      assert ProceedUpdate(w, failing, p, now) == (w.(plane := pl1), Some(ProfileUpdateFailed(key)));
    } else {
      var w1 := w.(plane := pl1);
      if p.endpointsChanged {
        UpsertRunLog(w1, failing, false, key, p.hostname, p.endpoints, now);
      }
      var (w2, failed) :=
        if p.endpointsChanged then UpsertEndpointsRun(w1, failing, false, key, p.hostname, p.endpoints, now)
        else (w1, None);
      if failed.Some? {
        assert ProceedUpdate(w, failing, p, now) == (w2, Some(EndpointUpdateFailed(failed.value)));
      } else {
        assert w2.plane.log == w.plane.log
          + (if p.profileChanged then [Call(UpdateProfileOp, key, true)] else [])
          + (if p.endpointsChanged then OkCalls(false, key, p.endpoints) else []);
        var w3 := RefreshAfterUpdate(w2, failing, key, p.hostname, now);
        assert ProceedUpdate(w, failing, p, now).0 == w3;
        assert w3.plane.log == w2.plane.log + [Call(GetProfileStateOp, key, Admits(w2.plane, failing) && key in w2.plane.profiles)];
        assert w3.plane.log[..|w3.plane.log| - 1] == w2.plane.log;
      }
    }
  }

  /** The log entries of a successful loop are all endpoint calls. */
  lemma {:induction false} OkCallsOps(create: bool, key: Key, eps: seq<TM.EndpointConfig>)
    ensures |OkCalls(create, key, eps)| == |eps|
    ensures forall i :: 0 <= i < |eps| ==> OkCalls(create, key, eps)[i] == Call(UpsertOp(create, eps[i].endpointName), key, true)
  {
    if |eps| > 0 {
      OkCallsOps(create, key, eps[..|eps| - 1]);
    }
  }

  /** A successful weight-only update sends no profile update and exactly one endpoint update per target. */
  lemma WeightOnlyUpdateCalls(w: World, failing: set<nat>, oldEp: Endpoint, newEp: Endpoint, now: nat, p: UpdatePlan)
    requires PlanUpdate(oldEp, newEp) == Proceed(p) && UpdateRun(w, failing, oldEp, newEp, now).1.None?
    requires ParseConfig(oldEp.labels).Success?
    requires ParseConfig(oldEp.labels).value == ParseConfig(newEp.labels).value.(weight := ParseConfig(oldEp.labels).value.weight)
    requires ParseConfig(oldEp.labels).value.weight != ParseConfig(newEp.labels).value.weight
    ensures var log' := UpdateRun(w, failing, oldEp, newEp, now).0.plane.log;
      && |log'| == |w.plane.log| + |newEp.targets| + 1
      && (forall i :: |w.plane.log| <= i < |log'| ==> log'[i].op != UpdateProfileOp)
      && (forall i :: |w.plane.log| <= i < |w.plane.log| + |newEp.targets| ==> log'[i].op == UpdateEndpointOp(p.config.endpointName))
  {
    WeightOnlyChange(oldEp, newEp, p);
    UpdateDecision(oldEp, newEp, p);
    UpdateRunLog(w, failing, oldEp, newEp, now, p);
    EndpointOnlyLog(w.plane.log, UpdateRun(w, failing, oldEp, newEp, now).0.plane.log, KeyOf(p.profile), p.endpoints, p.config.endpointName);
  }

  /** A log that grew by the calls of a successful update loop and one refresh holds no profile update. */
  lemma EndpointOnlyLog(log: seq<Call>, log': seq<Call>, key: Key, eps: seq<TM.EndpointConfig>, name: string)
    requires |log'| > 0 && log'[..|log'| - 1] == log + [] + OkCalls(false, key, eps)
    requires log'[|log'| - 1].op == GetProfileStateOp
    requires forall i :: 0 <= i < |eps| ==> eps[i].endpointName == name
    ensures |log'| == |log| + |eps| + 1
    ensures forall i :: |log| <= i < |log'| ==> log'[i].op != UpdateProfileOp
    ensures forall i :: |log| <= i < |log| + |eps| ==> log'[i].op == UpdateEndpointOp(name)
  {
    OkCallsOps(false, key, eps);
    assert forall i :: |log| <= i < |log'| - 1 ==> log'[i] == log'[..|log'| - 1][i];
  }

  // --------------------------------------------------------------- delete

  /** The per-target loop of deleteEndpoint: the same endpoint name each time; a failure is only logged. */
  function DeleteEndpointsRun(w: World, failing: set<nat>, key: Key, dnsName: string, name: string, attempts: nat, now: nat): World
  {
    if attempts == 0 then w
    else
      var w1 := DeleteEndpointsRun(w, failing, key, dnsName, name, attempts - 1, now);
      var (pl, ok) := DeleteEndpointStep(w1.plane, failing, key, name);
      World(pl, if ok then MirrorDeleteEndpoint(w1.mirror, dnsName, name, now) else w1.mirror, w1.cnames)
  }

  /** deleteEndpoint from its first remote call on: the profile goes when it has no endpoints left. */
  function ProceedDelete(w: World, failing: set<nat>, dnsName: string, p: DeletePlan, now: nat): World
  {
    var w1 := DeleteEndpointsRun(w, failing, p.key, dnsName, p.endpointName, p.attempts, now);
    var (pl, s) := GetProfileStateStep(w1.plane, failing, p.key, now);
    if s.None? then w1.(plane := pl)
    else if |s.value.endpoints| == 0 then
      var (pl2, deleted) := DeleteProfileStep(pl, failing, p.key);
      if !deleted then w1.(plane := pl2)
      else World(pl2, w1.mirror - {p.vanity},
        if p.vanity != "" && p.vanity != dnsName then w1.cnames + [DeleteCname(DnsEndpoint.CnameName(p.vanity))] else w1.cnames)
    else w1.(plane := pl, mirror := w1.mirror[p.vanity := Stamped(s.value.(hostname := p.vanity), now)])
  }

  function DeleteRun(w: World, failing: set<nat>, ep: Endpoint, now: nat): (World, Outcome)
  {
    match PlanDelete(ep)
    case Skip => (w, None)
    case Reject(e) => (w, Some(e))
    case Proceed(p) => (ProceedDelete(w, failing, ep.dnsName, p, now), None)
  }

  /** An enabled delete always returns nil, whatever the control plane answers. */
  lemma DeleteNeverFailsOnceEnabled(w: World, failing: set<nat>, ep: Endpoint, now: nat)
    ensures DeleteRun(w, failing, ep, now).1.Some? <==> ParseConfig(ep.labels).Failure?
  {
    DeleteDecision(ep);
  }

  /** The endpoint loop makes exactly one DeleteEndpoint call per attempt and leaves the CNAME requests alone. */
  lemma {:induction false} DeleteEndpointsLog(w: World, failing: set<nat>, key: Key, dnsName: string, name: string, attempts: nat, now: nat)
    ensures var w' := DeleteEndpointsRun(w, failing, key, dnsName, name, attempts, now);
      && |w'.plane.log| == |w.plane.log| + attempts
      && w'.plane.log[..|w.plane.log|] == w.plane.log
      && (forall i :: |w.plane.log| <= i < |w'.plane.log| ==> w'.plane.log[i].op == DeleteEndpointOp(name) && w'.plane.log[i].key == key)
      && w'.cnames == w.cnames
  {
    if attempts > 0 {
      DeleteEndpointsLog(w, failing, key, dnsName, name, attempts - 1, now);
    }
  }

  /**
   * The profile is deleted exactly when the refresh after the endpoint loop
   * reports no endpoints; the mirror entry of the vanity hostname is removed
   * exactly when that delete succeeds.
   */
  lemma DeleteProfileIff(w: World, failing: set<nat>, ep: Endpoint, now: nat, p: DeletePlan)
    requires PlanDelete(ep) == Proceed(p)
    ensures var w1 := DeleteEndpointsRun(w, failing, p.key, ep.dnsName, p.endpointName, p.attempts, now);
      var (pl, s) := GetProfileStateStep(w1.plane, failing, p.key, now);
      var w' := DeleteRun(w, failing, ep, now).0;
      && |w'.plane.log| >= |w1.plane.log| + 1
      && w'.plane.log[|w1.plane.log|].op == GetProfileStateOp
      && ((exists i :: |w1.plane.log| < i < |w'.plane.log| && w'.plane.log[i].op == DeleteProfileOp) <==> s.Some? && |s.value.endpoints| == 0)
      && (s.Some? && |s.value.endpoints| == 0 && DeleteProfileStep(pl, failing, p.key).1 ==> p.vanity !in w'.mirror)
      && (s.Some? && |s.value.endpoints| > 0 ==> p.vanity in w'.mirror && w'.mirror[p.vanity].hostname == p.vanity)
      && (s.None? || (|s.value.endpoints| == 0 && !DeleteProfileStep(pl, failing, p.key).1) ==> w'.mirror == w1.mirror)
  {
    var w1 := DeleteEndpointsRun(w, failing, p.key, ep.dnsName, p.endpointName, p.attempts, now);
    var (pl, s) := GetProfileStateStep(w1.plane, failing, p.key, now);
    assert pl.log[|w1.plane.log|].op == GetProfileStateOp;
    if s.Some? && |s.value.endpoints| == 0 {
      var (pl2, deleted) := DeleteProfileStep(pl, failing, p.key);
      assert pl2.log[|w1.plane.log| + 1].op == DeleteProfileOp;
    }
  }

  // --------------------------------------------------------------- records

  /** The CNAME record Records publishes for a mirrored profile. */
  function CnameRecord(p: ProfileState): (e: Endpoint)
    ensures e.dnsName == p.hostname && e.targets == [p.fqdn] && e.recordType == "CNAME" && e.recordTtl == CnameTtl
  {
    Endpoint(p.hostname, [p.fqdn], "CNAME", "", CnameTtl,
      map["traffic-manager-profile" := p.profileName,
          "traffic-manager-resource-group" := p.resourceGroup,
          "traffic-manager-routing-method" := p.routingMethod],
      [])
  }

  /** The profiles Records turns into records: with a hostname and an FQDN, and a hostname the domain filter admits. */
  predicate Publishable(p: ProfileState, domainFilter: seq<string>)
  {
    p.hostname != "" && p.fqdn != "" && DomainFilter.MatchesDomainFilter(domainFilter, p.hostname)
  }

  function RecordsOf(profiles: seq<ProfileState>, domainFilter: seq<string>): seq<Endpoint>
  {
    if |profiles| == 0 then []
    else
      var init := RecordsOf(profiles[..|profiles| - 1], domainFilter);
      var p := profiles[|profiles| - 1];
      if Publishable(p, domainFilter) then init + [CnameRecord(p)] else init
  }

  /** The mirror after the first loop of Records: every synced profile with a hostname stored under it. */
  function MirrorSynced(m: map<string, ProfileState>, profiles: seq<ProfileState>, now: nat): map<string, ProfileState>
  {
    if |profiles| == 0 then m
    else
      var init := MirrorSynced(m, profiles[..|profiles| - 1], now);
      var p := profiles[|profiles| - 1];
      if p.hostname != "" then init[p.hostname := Stamped(p, now)] else init
  }

  /** Records emits one CNAME per publishable profile, in order, and nothing for the others. */
  lemma {:induction false} RecordsMeaning(profiles: seq<ProfileState>, domainFilter: seq<string>)
    ensures |RecordsOf(profiles, domainFilter)| <= |profiles|
    ensures forall r :: r in RecordsOf(profiles, domainFilter) <==>
      exists p :: p in profiles && Publishable(p, domainFilter) && r == CnameRecord(p)
  {
    if |profiles| > 0 {
      var init := profiles[..|profiles| - 1];
      RecordsMeaning(init, domainFilter);
      assert profiles == init + [profiles[|profiles| - 1]];
      forall p | p in profiles ensures p in init || p == profiles[|profiles| - 1] { }
    }
  }

  /** Every record Records emits points its hostname at the profile's FQDN, with a TTL of 300. */
  lemma RecordsAreCnames(profiles: seq<ProfileState>, domainFilter: seq<string>)
    ensures forall r :: r in RecordsOf(profiles, domainFilter) ==>
      r.recordType == "CNAME" && r.recordTtl == CnameTtl && |r.targets| == 1 &&
      r.dnsName != "" && r.targets[0] != "" && DomainFilter.MatchesDomainFilter(domainFilter, r.dnsName)
  {
    RecordsMeaning(profiles, domainFilter);
  }

  // --------------------------------------------------------------- changes

  function CreatesRun(w: World, failing: set<nat>, eps: seq<Endpoint>, now: nat): (World, Outcome)
  {
    if |eps| == 0 then (w, None)
    else
      var (w1, r) := CreatesRun(w, failing, eps[..|eps| - 1], now);
      if r.Some? then (w1, r) else CreateRun(w1, failing, eps[|eps| - 1], now)
  }

  function UpdatesRun(w: World, failing: set<nat>, olds: seq<Endpoint>, news: seq<Endpoint>, now: nat): (World, Outcome)
    requires |olds| <= |news|
  {
    if |olds| == 0 then (w, None)
    else
      var (w1, r) := UpdatesRun(w, failing, olds[..|olds| - 1], news, now);
      if r.Some? then (w1, r) else UpdateRun(w1, failing, olds[|olds| - 1], news[|olds| - 1], now)
  }

  function DeletesRun(w: World, failing: set<nat>, eps: seq<Endpoint>, now: nat): (World, Outcome)
  {
    if |eps| == 0 then (w, None)
    else
      var (w1, r) := DeletesRun(w, failing, eps[..|eps| - 1], now);
      if r.Some? then (w1, r) else DeleteRun(w1, failing, eps[|eps| - 1], now)
  }

  /** ApplyChanges: the creates, then the update pairs, then the deletes, stopping at the first error. */
  function ApplyRun(w: World, failing: set<nat>, changes: Changes, now: nat): (World, Outcome)
    requires |changes.updateOld| <= |changes.updateNew|
  {
    var (w1, r1) := CreatesRun(w, failing, changes.create, now);
    if r1.Some? then (w1, r1)
    else
      var (w2, r2) := UpdatesRun(w1, failing, changes.updateOld, changes.updateNew, now);
      if r2.Some? then (w2, r2)
      else DeletesRun(w2, failing, changes.delete, now)
  }

  /** A failing create stops ApplyChanges: no update or delete is attempted. */
  lemma ApplyStopsAtCreateError(w: World, failing: set<nat>, changes: Changes, now: nat)
    requires |changes.updateOld| <= |changes.updateNew|
    requires CreatesRun(w, failing, changes.create, now).1.Some?
    ensures ApplyRun(w, failing, changes, now) == CreatesRun(w, failing, changes.create, now)
  {
  }

  /** An error from the k-th create is the error of the whole batch, and the creates after it never run. */
  lemma {:induction false} CreatesStopAt(w: World, failing: set<nat>, eps: seq<Endpoint>, now: nat, k: nat)
    requires k <= |eps| && CreatesRun(w, failing, eps[..k], now).1.Some?
    ensures CreatesRun(w, failing, eps, now) == CreatesRun(w, failing, eps[..k], now)
    decreases |eps| - k
  {
    if k < |eps| {
      assert eps[..|eps| - 1][..k] == eps[..k];
      CreatesStopAt(w, failing, eps[..|eps| - 1], now, k);
    } else {
      assert eps[..k] == eps;
    }
  }

  /** Deletes never stop the batch for a control-plane failure: only a parse error does. */
  lemma {:induction false} DeletesFailOnlyOnParse(w: World, failing: set<nat>, eps: seq<Endpoint>, now: nat)
    ensures DeletesRun(w, failing, eps, now).1.Some? ==>
      exists i :: 0 <= i < |eps| && ParseConfig(eps[i].labels).Failure? &&
        DeletesRun(w, failing, eps, now).1 == Some(ParseFailed(ParseConfig(eps[i].labels).error))
  {
    if |eps| > 0 {
      var init := eps[..|eps| - 1];
      DeletesFailOnlyOnParse(w, failing, init, now);
      var (w1, r) := DeletesRun(w, failing, init, now);
      if r.Some? {
        var i :| 0 <= i < |init| && ParseConfig(init[i].labels).Failure? && r == Some(ParseFailed(ParseConfig(init[i].labels).error));
        assert init[i] == eps[i];
      } else {
        DeleteNeverFailsOnceEnabled(w1, failing, eps[|eps| - 1], now);
      }
    }
  }

  // ------------------------------------------------------- the decisions
  //
  // The planning functions in ProviderPlan state what each handler decides
  // before its first remote call; the lemmas are proved about them. The
  // methods below are the executable form the class calls: they follow the
  // handlers' own statement order (early returns, the configuration record
  // overwritten field by field, the MergeAnnotations and ValidateConfig
  // loops called as methods), and each ensures that it agrees with its
  // planning function, so the reasoning about a plan applies to the run.

  /** createEndpoint up to its first remote call. */
  method DecideCreate(ep: Endpoint) returns (d: Decision<CreatePlan>)
    ensures d == PlanCreate(ep)
  {
    if ep.recordType == "TXT" {
      return Skip;
    }
    var annotations := MergeAnnotations(ep.labels, ep.providerSpecific);
    var parsed := ParseConfig(annotations);
    if parsed.Failure? {
      return Reject(ParseFailed(parsed.error));
    }
    var config := parsed.value;
    if !config.enabled {
      return Skip;
    }
    var invalid := ValidateConfig(config);
    if invalid.Some? {
      return Reject(Invalid(invalid.value));
    }
    var p := BuildCreate(config, ep);
    return Proceed(p);
  }

  /** createEndpoint from the validated configuration to the first remote call: names, tags and targets. */
  method BuildCreate(c: Config, ep: Endpoint) returns (p: CreatePlan)
    ensures p == BuildCreatePlan(c, ep)
  {
    var config := c;
    var vanity := config.hostname;
    if vanity == "" {
      vanity := ep.dnsName;
    }
    if config.profileName == "" {
      config := config.(profileName := GenerateProfileName(vanity));
    }
    if config.endpointName == "" {
      config := config.(endpointName := GenerateEndpointName(ep.dnsName, ep.targets));
    }
    var profileConfig := ToProfileConfig(config);
    profileConfig := profileConfig.(tags := profileConfig.tags[HostnameTag := vanity]);
    var targets := [ep.dnsName];
    if ep.recordType != "A" && |ep.targets| > 0 {
      targets := ep.targets;
    }
    return CreatePlan(config, vanity, profileConfig,
      seq(|targets|, i requires 0 <= i < |targets| => PlannedEndpoint(config, ep, targets, i)));
  }

  /** updateEndpoint up to its first remote call. */
  method DecideUpdate(oldEp: Endpoint, newEp: Endpoint) returns (d: Decision<UpdatePlan>)
    ensures d == PlanUpdate(oldEp, newEp)
  {
    var parsed := ParseConfig(newEp.labels);
    if parsed.Failure? {
      return Reject(ParseFailed(parsed.error));
    }
    var newConfig := parsed.value;
    if !newConfig.enabled {
      return Skip;
    }
    var invalid := ValidateConfig(newConfig);
    if invalid.Some? {
      return Reject(Invalid(invalid.value));
    }
    var oldConfig := ParseConfig(oldEp.labels);
    var p := BuildUpdate(newConfig, oldConfig, newEp);
    return Proceed(p);
  }

  /** updateEndpoint from the validated configuration to the first remote call: names, tags and what changed. */
  method BuildUpdate(c: Config, oldConfig: Result<Config, ParseError>, newEp: Endpoint) returns (p: UpdatePlan)
    ensures p == BuildUpdatePlan(c, oldConfig, newEp)
  {
    var newConfig := c;
    if newConfig.profileName == "" {
      newConfig := newConfig.(profileName := GenerateProfileName(newEp.dnsName));
    }
    if newConfig.endpointName == "" {
      newConfig := newConfig.(endpointName := GenerateEndpointName(newEp.dnsName, newEp.targets));
    }
    var profileChanged := oldConfig.Failure? || ProfileSettingsDiffer(oldConfig.value, newConfig);
    var profileConfig := ToProfileConfig(newConfig);
    profileConfig := profileConfig.(tags := profileConfig.tags[HostnameTag := newEp.dnsName]);
    var endpointsChanged := oldConfig.Success? &&
      (oldConfig.value.weight != newConfig.weight || oldConfig.value.endpointStatus != newConfig.endpointStatus);
    return UpdatePlan(newConfig, newEp.dnsName, profileConfig, profileChanged, endpointsChanged,
      seq(|newEp.targets|, i requires 0 <= i < |newEp.targets| => ToEndpointConfig(newConfig, newEp.targets[i])));
  }

  /** deleteEndpoint up to its first remote call. */
  method DecideDelete(ep: Endpoint) returns (d: Decision<DeletePlan>)
    ensures d == PlanDelete(ep)
  {
    var parsed := ParseConfig(ep.labels);
    if parsed.Failure? {
      return Reject(ParseFailed(parsed.error));
    }
    var config := parsed.value;
    if !config.enabled {
      return Skip;
    }
    var vanity := config.hostname;
    if vanity == "" {
      vanity := ep.dnsName;
    }
    if config.profileName == "" {
      config := config.(profileName := GenerateProfileName(ep.dnsName));
    }
    if config.endpointName == "" {
      config := config.(endpointName := GenerateEndpointName(ep.dnsName, ep.targets));
    }
    return Proceed(DeletePlan(Key(config.resourceGroup, config.profileName), vanity,
      config.endpointName, config.endpointType, |ep.targets|));
  }

  // --------------------------------------------------------------- the class

  class TrafficManagerProvider {
    const domainFilter: seq<string>
    const resourceGroups: seq<string>
    const plane: ControlPlane
    const mirror: Manager
    ghost var cnames: seq<CnameEvent>

    ghost predicate Valid()
      reads this, plane
    {
      plane.Valid()
    }

    ghost function Snapshot(): World
      reads this, plane, mirror
    {
      World(plane.View(), mirror.profiles, cnames)
    }

    constructor(domainFilter: seq<string>, resourceGroups: seq<string>, plane: ControlPlane, mirror: Manager)
      requires plane.Valid()
      ensures Valid() && this.plane == plane && this.mirror == mirror && cnames == []
      ensures this.domainFilter == domainFilter && this.resourceGroups == resourceGroups
    {
      this.domainFilter := domainFilter;
      this.resourceGroups := resourceGroups;
      this.plane := plane;
      this.mirror := mirror;
      cnames := [];
    }

    /** matchesDomainFilter on the provider's filter list. */
    predicate MatchesDomainFilter(hostname: string)
      reads this
    {
      DomainFilter.MatchesDomainFilter(domainFilter, hostname)
    }

    /** One pass of the per-target loops: the create or update call, then on success the mirror write. */
    method UpsertTarget(create: bool, key: Key, hostname: string, e: TM.EndpointConfig, now: nat) returns (failed: Option<string>)
      requires Valid()
      modifies plane, mirror
      ensures Valid()
      ensures (Snapshot(), failed) == UpsertOne(old(Snapshot()), plane.failing, create, key, hostname, e, now)
    {
      var state;
      if create {
        state := plane.CreateEndpoint(key.resourceGroup, key.profileName, e, now);
      } else {
        state := plane.UpdateEndpoint(key.resourceGroup, key.profileName, e, now);
      }
      if state.None? {
        return Some(e.endpointName);
      }
      mirror.SetEndpoint(hostname, e.endpointName, ConvertToStateEndpoint(state.value), now);
      return None;
    }

    /** createEndpoint's per-target loop. */
    method CreateTargetEndpoints(config: Config, ep: Endpoint, targets: seq<string>, vanity: string, now: nat)
      returns (failed: Option<string>)
      requires Valid()
      modifies plane, mirror
      ensures Valid()
      ensures (Snapshot(), failed) == UpsertEndpointsRun(old(Snapshot()), plane.failing, true,
        Key(config.resourceGroup, config.profileName), vanity,
        seq(|targets|, i requires 0 <= i < |targets| => PlannedEndpoint(config, ep, targets, i)), now)
    {
      ghost var w0 := Snapshot();
      var key := Key(config.resourceGroup, config.profileName);
      ghost var eps := seq(|targets|, i requires 0 <= i < |targets| => PlannedEndpoint(config, ep, targets, i));
      var i := 0;
      while i < |targets|
        invariant 0 <= i <= |targets| && Valid()
        invariant (Snapshot(), None) == UpsertEndpointsRun(w0, plane.failing, true, key, vanity, eps[..i], now)
      {
        var endpointConfig := PlannedEndpoint(config, ep, targets, i);
        UpsertRunNext(w0, plane.failing, true, key, vanity, eps, now, i);
        failed := UpsertTarget(true, key, vanity, endpointConfig, now);
        if failed.Some? {
          UpsertRunStops(w0, plane.failing, true, key, vanity, eps, now, i + 1);
          return;
        }
        i := i + 1;
      }
      assert eps[..i] == eps;
      return None;
    }

    /** The refresh at the end of createEndpoint. */
    method RefreshCreated(resourceGroup: string, profileName: string, vanity: string, dnsName: string, now: nat)
      requires Valid()
      modifies this, plane, mirror
      ensures Valid()
      ensures Snapshot() == RefreshAfterCreate(old(Snapshot()), plane.failing, Key(resourceGroup, profileName), vanity, dnsName, now)
    {
      var profileState := plane.GetProfileState(resourceGroup, profileName, now);
      if profileState.Some? {
        var stored := profileState.value.(hostname := vanity);
        var _ := mirror.SetProfile(vanity, stored, now);
        if vanity != "" && vanity != dnsName && stored.fqdn != "" {
          var resourceName := DnsEndpoint.GenerateName(vanity);
          cnames := cnames + [PublishCname(resourceName, vanity, stored.fqdn, CnameTtl)];
        }
      }
    }

    /** createEndpoint */
    method CreateEndpoint(ep: Endpoint, now: nat) returns (err: Outcome)
      requires Valid()
      modifies this, plane, mirror
      ensures Valid()
      ensures (Snapshot(), err) == CreateRun(old(Snapshot()), plane.failing, ep, now)
    {
      var d := DecideCreate(ep);
      match d
      case Skip => return None;
      case Reject(e) => return Some(e);
      case Proceed(p) => err := ExecuteCreate(ep, p, now);
    }

    /** createEndpoint from the profile call on. */
    method ExecuteCreate(ep: Endpoint, p: CreatePlan, now: nat) returns (err: Outcome)
      requires Valid() && PlanCreate(ep) == Proceed(p)
      modifies this, plane, mirror
      ensures Valid()
      ensures (Snapshot(), err) == ProceedCreate(old(Snapshot()), plane.failing, ep.dnsName, p, now)
    {
      var config := p.config;
      var key := Key(config.resourceGroup, config.profileName);
      assert key == KeyOf(p.profile);
      var created := plane.CreateProfile(p.profile);
      if !created {
        var found := plane.GetProfile(config.resourceGroup, config.profileName);
        if !found {
          return Some(ProfileUnavailable(key));
        }
      }
      var failed := CreateTargetEndpoints(config, ep, CreateTargets(ep), p.vanity, now);
      if failed.Some? {
        return Some(EndpointCreateFailed(failed.value));
      }
      RefreshCreated(config.resourceGroup, config.profileName, p.vanity, ep.dnsName, now);
      return None;
    }

    /** updateEndpoint's per-target loop: an update for each target only when weight or status changed. */
    method UpdateTargetEndpoints(config: Config, targets: seq<string>, changed: bool, hostname: string, now: nat)
      returns (failed: Option<string>)
      requires Valid()
      modifies plane, mirror
      ensures Valid()
      ensures (Snapshot(), failed) ==
        if changed then
          UpsertEndpointsRun(old(Snapshot()), plane.failing, false, Key(config.resourceGroup, config.profileName), hostname,
            TargetConfigs(config, targets), now)
        else (old(Snapshot()), None)
    {
      ghost var w0 := Snapshot();
      var key := Key(config.resourceGroup, config.profileName);
      ghost var eps := seq(|targets|, i requires 0 <= i < |targets| => ToEndpointConfig(config, targets[i]));
      assert eps == TargetConfigs(config, targets);
      var i := 0;
      while i < |targets|
        invariant 0 <= i <= |targets| && Valid()
        invariant (Snapshot(), None) == if changed then UpsertEndpointsRun(w0, plane.failing, false, key, hostname, eps[..i], now) else (w0, None)
      {
        if changed {
          var endpointConfig := ToEndpointConfig(config, targets[i]);
          assert endpointConfig == eps[i];
          UpsertRunNext(w0, plane.failing, false, key, hostname, eps, now, i);
          failed := UpsertTarget(false, key, hostname, endpointConfig, now);
          if failed.Some? {
            UpsertRunStops(w0, plane.failing, false, key, hostname, eps, now, i + 1);
            return;
          }
        }
        i := i + 1;
      }
      assert eps[..i] == eps;
      return None;
    }

    /** The refresh at the end of updateEndpoint. */
    method RefreshUpdated(resourceGroup: string, profileName: string, hostname: string, now: nat)
      requires Valid()
      modifies plane, mirror
      ensures Valid()
      ensures Snapshot() == RefreshAfterUpdate(old(Snapshot()), plane.failing, Key(resourceGroup, profileName), hostname, now)
    {
      var profileState := plane.GetProfileState(resourceGroup, profileName, now);
      if profileState.Some? {
        var _ := mirror.SetProfile(hostname, profileState.value.(hostname := hostname), now);
      }
    }

    /** updateEndpoint */
    method UpdateEndpoint(oldEp: Endpoint, newEp: Endpoint, now: nat) returns (err: Outcome)
      requires Valid()
      modifies plane, mirror
      ensures Valid()
      ensures (Snapshot(), err) == UpdateRun(old(Snapshot()), plane.failing, oldEp, newEp, now)
    {
      var d := DecideUpdate(oldEp, newEp);
      match d
      case Skip => return None;
      case Reject(e) => return Some(e);
      case Proceed(p) => err := ExecuteUpdate(oldEp, newEp, p, now);
    }

    /** updateEndpoint from the profile update on. */
    method ExecuteUpdate(oldEp: Endpoint, newEp: Endpoint, p: UpdatePlan, now: nat) returns (err: Outcome)
      requires Valid() && PlanUpdate(oldEp, newEp) == Proceed(p)
      modifies plane, mirror
      ensures Valid()
      ensures (Snapshot(), err) == ProceedUpdate(old(Snapshot()), plane.failing, p, now)
    {
      var config := p.config;
      var key := Key(config.resourceGroup, config.profileName);
      assert key == KeyOf(p.profile);
      UpdateDecision(oldEp, newEp, p);
      assert p.endpoints == TargetConfigs(config, newEp.targets);
      if p.profileChanged {
        var ok := plane.UpdateProfile(p.profile);
        if !ok {
          return Some(ProfileUpdateFailed(key));
        }
      }
      ghost var w1 := Snapshot();
      var failed := UpdateTargetEndpoints(config, newEp.targets, p.endpointsChanged, newEp.dnsName, now);
      assert (Snapshot(), failed) ==
        if p.endpointsChanged then UpsertEndpointsRun(w1, plane.failing, false, key, p.hostname, p.endpoints, now) else (w1, None);
      if failed.Some? {
        return Some(EndpointUpdateFailed(failed.value));
      }
      RefreshUpdated(config.resourceGroup, config.profileName, newEp.dnsName, now);
      return None;
    }

    /** deleteEndpoint's per-target loop: one attempt per target, a failure only logged. */
    method DeleteTargetEndpoints(key: Key, endpointName: string, ep: Endpoint, now: nat)
      requires Valid()
      modifies plane, mirror
      ensures Valid()
      ensures Snapshot() == DeleteEndpointsRun(old(Snapshot()), plane.failing, key, ep.dnsName, endpointName, |ep.targets|, now)
    {
      ghost var w0 := Snapshot();
      var i := 0;
      while i < |ep.targets|
        invariant 0 <= i <= |ep.targets| && Valid()
        invariant Snapshot() == DeleteEndpointsRun(w0, plane.failing, key, ep.dnsName, endpointName, i, now)
      {
        var ok := plane.DeleteEndpoint(key.resourceGroup, key.profileName, endpointName);
        if ok {
          mirror.DeleteEndpoint(ep.dnsName, endpointName, now);
        }
        i := i + 1;
      }
    }

    /** deleteEndpoint */
    method DeleteEndpoint(ep: Endpoint, now: nat) returns (err: Outcome)
      requires Valid()
      modifies this, plane, mirror
      ensures Valid()
      ensures (Snapshot(), err) == DeleteRun(old(Snapshot()), plane.failing, ep, now)
    {
      var d := DecideDelete(ep);
      match d
      case Skip => return None;
      case Reject(e) => return Some(e);
      case Proceed(p) =>
        ExecuteDelete(ep, p, now);
        return None;
    }

    /** deleteEndpoint from the endpoint loop on; it always ends in nil. */
    method ExecuteDelete(ep: Endpoint, p: DeletePlan, now: nat)
      requires Valid() && PlanDelete(ep) == Proceed(p)
      modifies this, plane, mirror
      ensures Valid()
      ensures Snapshot() == ProceedDelete(old(Snapshot()), plane.failing, ep.dnsName, p, now)
    {
      DeleteTargetEndpoints(p.key, p.endpointName, ep, now);
      ghost var w1 := Snapshot();
      var profileState := plane.GetProfileState(p.key.resourceGroup, p.key.profileName, now);
      assert (plane.View(), profileState) == GetProfileStateStep(w1.plane, plane.failing, p.key, now);
      if profileState.Some? && |profileState.value.endpoints| == 0 {
        var deleted := plane.DeleteProfile(p.key.resourceGroup, p.key.profileName);
        if deleted {
          mirror.DeleteProfile(p.vanity);
          if p.vanity != "" && p.vanity != ep.dnsName {
            var resourceName := DnsEndpoint.GenerateName(p.vanity);
            cnames := cnames + [DeleteCname(resourceName)];
          }
        }
      } else if profileState.Some? {
        var _ := mirror.SetProfile(p.vanity, profileState.value.(hostname := p.vanity), now);
      }
    }

    /** ApplyChanges: the creates, then the update pairs, then the deletes, returning the first error. */
    method ApplyChanges(changes: Changes, now: nat) returns (err: Outcome)
      requires Valid()
      requires |changes.updateOld| <= |changes.updateNew|
      modifies this, plane, mirror
      ensures Valid()
      ensures (Snapshot(), err) == ApplyRun(old(Snapshot()), plane.failing, changes, now)
    {
      err := ApplyCreates(changes.create, now);
      if err.Some? {
        return;
      }
      err := ApplyUpdates(changes.updateOld, changes.updateNew, now);
      if err.Some? {
        return;
      }
      err := ApplyDeletes(changes.delete, now);
    }

    method ApplyCreates(eps: seq<Endpoint>, now: nat) returns (err: Outcome)
      requires Valid()
      modifies this, plane, mirror
      ensures Valid()
      ensures (Snapshot(), err) == CreatesRun(old(Snapshot()), plane.failing, eps, now)
    {
      ghost var w0 := Snapshot();
      var i := 0;
      while i < |eps|
        invariant 0 <= i <= |eps| && Valid()
        invariant (Snapshot(), None) == CreatesRun(w0, plane.failing, eps[..i], now)
      {
        assert eps[..i + 1][..i] == eps[..i];
        err := CreateEndpoint(eps[i], now);
        if err.Some? {
          CreatesStopAt(w0, plane.failing, eps, now, i + 1);
          return;
        }
        i := i + 1;
      }
      assert eps[..i] == eps;
      return None;
    }

    method ApplyUpdates(olds: seq<Endpoint>, news: seq<Endpoint>, now: nat) returns (err: Outcome)
      requires Valid() && |olds| <= |news|
      modifies plane, mirror
      ensures Valid()
      ensures (Snapshot(), err) == UpdatesRun(old(Snapshot()), plane.failing, olds, news, now)
    {
      ghost var w0 := Snapshot();
      var i := 0;
      while i < |olds|
        invariant 0 <= i <= |olds| && Valid()
        invariant (Snapshot(), None) == UpdatesRun(w0, plane.failing, olds[..i], news, now)
      {
        assert olds[..i + 1][..i] == olds[..i];
        err := UpdateEndpoint(olds[i], news[i], now);
        if err.Some? {
          UpdatesStopAt(w0, plane.failing, olds, news, now, i + 1);
          return;
        }
        i := i + 1;
      }
      assert olds[..i] == olds;
      return None;
    }

    method ApplyDeletes(eps: seq<Endpoint>, now: nat) returns (err: Outcome)
      requires Valid()
      modifies this, plane, mirror
      ensures Valid()
      ensures (Snapshot(), err) == DeletesRun(old(Snapshot()), plane.failing, eps, now)
    {
      ghost var w0 := Snapshot();
      var i := 0;
      while i < |eps|
        invariant 0 <= i <= |eps| && Valid()
        invariant (Snapshot(), None) == DeletesRun(w0, plane.failing, eps[..i], now)
      {
        assert eps[..i + 1][..i] == eps[..i];
        err := DeleteEndpoint(eps[i], now);
        if err.Some? {
          DeletesStopAt(w0, plane.failing, eps, now, i + 1);
          return;
        }
        i := i + 1;
      }
      assert eps[..i] == eps;
      return None;
    }

    /** Records: sync the profiles, store each under its hostname, and publish the CNAMEs. */
    method Records(pagesOf: string -> seq<Page>, now: nat) returns (endpoints: seq<Endpoint>)
      requires Valid()
      modifies mirror
      ensures Valid()
      ensures endpoints == RecordsOf(SyncedStates(resourceGroups, pagesOf, now), domainFilter)
      ensures mirror.profiles == MirrorSynced(old(mirror.profiles), SyncedStates(resourceGroups, pagesOf, now), now)
    {
      var profiles := SyncProfilesFromAzure(resourceGroups, pagesOf, now);
      StoreSynced(profiles, now);
      endpoints := CnameRecords(profiles);
    }

    /** The first loop of Records: each profile with a hostname is stored under it. */
    method StoreSynced(profiles: seq<ProfileState>, now: nat)
      modifies mirror
      ensures mirror.profiles == MirrorSynced(old(mirror.profiles), profiles, now)
    {
      ghost var m0 := mirror.profiles;
      var i := 0;
      while i < |profiles|
        invariant 0 <= i <= |profiles|
        invariant mirror.profiles == MirrorSynced(m0, profiles[..i], now)
      {
        assert profiles[..i + 1][..i] == profiles[..i];
        if profiles[i].hostname != "" {
          var _ := mirror.SetProfile(profiles[i].hostname, profiles[i], now);
        }
        i := i + 1;
      }
      assert profiles[..i] == profiles;
    }

    /** The second loop of Records: a CNAME for each publishable profile. */
    method CnameRecords(profiles: seq<ProfileState>) returns (endpoints: seq<Endpoint>)
      ensures endpoints == RecordsOf(profiles, domainFilter)
    {
      endpoints := [];
      var i := 0;
      while i < |profiles|
        invariant 0 <= i <= |profiles|
        invariant endpoints == RecordsOf(profiles[..i], domainFilter)
      {
        assert profiles[..i + 1][..i] == profiles[..i];
        var profile := profiles[i];
        if profile.hostname != "" && profile.fqdn != "" && MatchesDomainFilter(profile.hostname) {
          endpoints := endpoints + [CnameRecord(profile)];
        }
        i := i + 1;
      }
      assert profiles[..i] == profiles;
    }
  }

  lemma {:induction false} UpdatesStopAt(w: World, failing: set<nat>, olds: seq<Endpoint>, news: seq<Endpoint>, now: nat, k: nat)
    requires |olds| <= |news| && k <= |olds| && UpdatesRun(w, failing, olds[..k], news, now).1.Some?
    ensures UpdatesRun(w, failing, olds, news, now) == UpdatesRun(w, failing, olds[..k], news, now)
    decreases |olds| - k
  {
    if k < |olds| {
      assert olds[..|olds| - 1][..k] == olds[..k];
      UpdatesStopAt(w, failing, olds[..|olds| - 1], news, now, k);
    } else {
      assert olds[..k] == olds;
    }
  }

  lemma {:induction false} DeletesStopAt(w: World, failing: set<nat>, eps: seq<Endpoint>, now: nat, k: nat)
    requires k <= |eps| && DeletesRun(w, failing, eps[..k], now).1.Some?
    ensures DeletesRun(w, failing, eps, now) == DeletesRun(w, failing, eps[..k], now)
    decreases |eps| - k
  {
    if k < |eps| {
      assert eps[..|eps| - 1][..k] == eps[..k];
      DeletesStopAt(w, failing, eps[..|eps| - 1], now, k);
    } else {
      assert eps[..k] == eps;
    }
  }
}

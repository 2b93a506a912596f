/**
 * Reading profiles back from the control plane (pkg/trafficmanager/sync.go):
 * the SDK's optional fields, the ownership test, the conversion of an SDK
 * profile into a mirror record, the paged listing of one resource group and
 * the sweep over all resource groups.
 */
module Sync {
  import opened Wrappers
  import opened State
  import Annotations

  // ------------------------------------------------- the SDK's data shapes

  datatype SdkEndpointProperties = SdkEndpointProperties(
    target: Option<string>,
    weight: Option<int>,
    priority: Option<int>,
    endpointStatus: Option<string>,
    endpointLocation: Option<string>)

  datatype SdkEndpoint = SdkEndpoint(
    name: Option<string>,
    endpointType: Option<string>,
    properties: Option<SdkEndpointProperties>)

  datatype SdkDnsConfig = SdkDnsConfig(fqdn: Option<string>, ttl: Option<int>)

  /** A nil endpoint list and an empty one read alike, so the list is not optional. */
  datatype SdkProfileProperties = SdkProfileProperties(
    dnsConfig: Option<SdkDnsConfig>,
    trafficRoutingMethod: Option<string>,
    endpoints: seq<SdkEndpoint>)

  datatype SdkProfile = SdkProfile(
    name: string,
    tags: Option<map<string, Option<string>>>,
    properties: Option<SdkProfileProperties>)

  /** One page of a listing, or the error that ends it. */
  datatype Page = PageOk(profiles: seq<SdkProfile>) | PageError

  const ManagedByTag: string := "managedBy"
  const HostnameTag: string := "hostname"

  // ------------------------------------------------------------ ownership

  /** isManagedByUs: the tag map exists and holds managedBy with the webhook's value. */
  predicate IsManagedByUs(p: SdkProfile)
  {
    && p.tags.Some?
    && ManagedByTag in p.tags.value
    && p.tags.value[ManagedByTag] == Some(Annotations.ManagedByValue)
  }

  /** toStringMapPtr: every value of the tag map becomes a non-nil pointer. */
  function ToStringMapPtr(m: map<string, string>): (r: map<string, Option<string>>)
    ensures r.Keys == m.Keys && forall k :: k in m ==> r[k] == Some(m[k])
  {
    map k | k in m :: Some(m[k])
  }

  /** A profile written with the tags ToProfileConfig produces (plus the hostname tag) is recognised as ours. */
  lemma WrittenProfilesAreManaged(c: Annotations.Config, hostname: string, name: string, props: Option<SdkProfileProperties>)
    ensures IsManagedByUs(SdkProfile(name, Some(ToStringMapPtr(Annotations.ToProfileConfig(c).tags[HostnameTag := hostname])), props))
  {
    assert ManagedByTag != HostnameTag;
  }

  /** Without the tag, or with any other value, a profile is not ours. */
  lemma ForeignProfilesAreNot(p: SdkProfile)
    requires p.tags.None? || ManagedByTag !in p.tags.value || p.tags.value[ManagedByTag] != Some(Annotations.ManagedByValue)
    ensures !IsManagedByUs(p)
  {
  }

  // ----------------------------------------------------------- conversion

  function StringOrEmpty(o: Option<string>): string { if o.Some? then o.value else "" }
  function IntOrZero(o: Option<int>): int { if o.Some? then o.value else 0 }

  /** endpointToState: absent fields keep their zero values. */
  function EndpointToState(e: SdkEndpoint, now: nat): (s: EndpointState)
    requires e.name.Some?
    ensures s.endpointName == e.name.value && s.createdAt == now && s.updatedAt == now
    ensures e.properties.None? ==> s.target == "" && s.weight == 0 && s.priority == 0 && s.status == "" && s.location == ""
    ensures e.endpointType.None? ==> s.endpointType == ""
  {
    var base := EndpointState(e.name.value, StringOrEmpty(e.endpointType), "", 0, 0, "", "", now, now);
    match e.properties
    case None => base
    case Some(ps) =>
      base.(
        target := StringOrEmpty(ps.target),
        weight := IntOrZero(ps.weight),
        priority := IntOrZero(ps.priority),
        status := StringOrEmpty(ps.endpointStatus),
        location := StringOrEmpty(ps.endpointLocation))
  }

  /** The endpoint map built from a list: unnamed endpoints skipped, later names overwriting earlier ones. */
  function KeyedEndpoints(eps: seq<SdkEndpoint>, now: nat): map<string, EndpointState>
  {
    if |eps| == 0 then map[]
    else
      var init := KeyedEndpoints(eps[..|eps| - 1], now);
      var last := eps[|eps| - 1];
      if last.name.Some? then init[last.name.value := EndpointToState(last, now)] else init
  }

  /** The tags whose value is not nil. */
  function CopiedTags(tags: map<string, Option<string>>): map<string, string>
  {
    map k | k in tags && tags[k].Some? :: tags[k].value
  }

  /** The record profileToState is specified to build at time now. */
  function StateOf(resourceGroup: string, p: SdkProfile, now: nat): ProfileState
  {
    var tags := if p.tags.Some? then CopiedTags(p.tags.value) else map[];
    var dns := if p.properties.Some? then p.properties.value.dnsConfig else None;
    ProfileState(
      profileName := p.name,
      resourceGroup := resourceGroup,
      hostname := if HostnameTag in tags then tags[HostnameTag] else "",
      fqdn := if dns.Some? then StringOrEmpty(dns.value.fqdn) else "",
      routingMethod := if p.properties.Some? then StringOrEmpty(p.properties.value.trafficRoutingMethod) else "",
      dnsTtl := if dns.Some? then IntOrZero(dns.value.ttl) else 0,
      endpoints := if p.properties.Some? then KeyedEndpoints(p.properties.value.endpoints, now) else map[],
      tags := tags,
      createdAt := now,
      updatedAt := now,
      cachedAt := now)
  }

  /** The endpoint loop of profileToState: each named endpoint converted under its name. */
  method ConvertEndpoints(eps: seq<SdkEndpoint>, now: nat) returns (endpoints: map<string, EndpointState>)
    ensures endpoints == KeyedEndpoints(eps, now)
  {
    endpoints := map[];
    var i := 0;
    while i < |eps|
      invariant 0 <= i <= |eps|
      invariant endpoints == KeyedEndpoints(eps[..i], now)
    {
      var e := eps[i];
      if e.name.Some? {
        endpoints := endpoints[e.name.value := EndpointToState(e, now)];
      }
      assert eps[..i + 1][..i] == eps[..i];
      i := i + 1;
    }
    assert eps[..i] == eps;
  }

  /** The tag loop of profileToState: every tag whose value is not nil, copied. */
  method CopyTags(tags: map<string, Option<string>>) returns (copied: map<string, string>)
    ensures copied == CopiedTags(tags)
  {
    copied := map[];
    var pending := tags.Keys;
    while pending != {}
      invariant pending <= tags.Keys
      invariant copied == map k | k in tags.Keys - pending && tags[k].Some? :: tags[k].value
      decreases |pending|
    {
      var k :| k in pending;
      if tags[k].Some? {
        copied := copied[k := tags[k].value];
      }
      pending := pending - {k};
    }
    assert copied == CopiedTags(tags);
  }

  /** profileToState: the scalar fields, then the endpoint loop, then the tag loop and the hostname tag. */
  method ProfileToState(resourceGroup: string, p: SdkProfile, now: nat) returns (s: ProfileState)
    ensures s == StateOf(resourceGroup, p, now)
  {
    s := ProfileState(p.name, resourceGroup, "", "", "", 0, map[], map[], now, now, now);
    if p.properties.Some? {
      var props := p.properties.value;
      if props.dnsConfig.Some? {
        if props.dnsConfig.value.fqdn.Some? {
          s := s.(fqdn := props.dnsConfig.value.fqdn.value);
        }
        if props.dnsConfig.value.ttl.Some? {
          s := s.(dnsTtl := props.dnsConfig.value.ttl.value);
        }
      }
      if props.trafficRoutingMethod.Some? {
        s := s.(routingMethod := props.trafficRoutingMethod.value);
      }
      var endpoints := ConvertEndpoints(props.endpoints, now);
      s := s.(endpoints := endpoints);
    }
    if p.tags.Some? {
      var tags := p.tags.value;
      var copied := CopyTags(tags);
      s := s.(tags := copied);
      if HostnameTag in copied {
        s := s.(hostname := copied[HostnameTag]);
      }
    }
  }

  /** Only non-nil tag values are copied, and the hostname is the copied hostname tag or "". */
  lemma StateOfTags(resourceGroup: string, p: SdkProfile, now: nat)
    requires p.tags.Some?
    ensures forall k :: k in StateOf(resourceGroup, p, now).tags <==> k in p.tags.value && p.tags.value[k].Some?
    ensures forall k :: k in StateOf(resourceGroup, p, now).tags ==> Some(StateOf(resourceGroup, p, now).tags[k]) == p.tags.value[k]
    ensures StateOf(resourceGroup, p, now).hostname ==
      if HostnameTag in p.tags.value && p.tags.value[HostnameTag].Some? then p.tags.value[HostnameTag].value else ""
  {
  }

  /** A profile without properties gets the zero values. */
  lemma StateOfBareProfile(resourceGroup: string, p: SdkProfile, now: nat)
    requires p.properties.None?
    ensures var s := StateOf(resourceGroup, p, now);
      s.fqdn == "" && s.dnsTtl == 0 && s.routingMethod == "" && s.endpoints == map[]
  {
  }

  /** The endpoint map holds exactly the named endpoints of the list. */
  lemma {:induction false} KeyedEndpointsKeys(eps: seq<SdkEndpoint>, now: nat)
    ensures forall k :: k in KeyedEndpoints(eps, now) <==> exists i :: 0 <= i < |eps| && eps[i].name == Some(k)
  {
    if |eps| > 0 {
      var init := eps[..|eps| - 1];
      KeyedEndpointsKeys(init, now);
      forall k | k in KeyedEndpoints(eps, now)
        ensures exists i :: 0 <= i < |eps| && eps[i].name == Some(k)
      {
        if k in KeyedEndpoints(init, now) {
          var i :| 0 <= i < |init| && init[i].name == Some(k);
          assert eps[i] == init[i];
        } else {
          assert eps[|eps| - 1].name == Some(k);
        }
      }
      forall k, i | 0 <= i < |eps| && eps[i].name == Some(k)
        ensures k in KeyedEndpoints(eps, now)
      {
        if i < |eps| - 1 {
          assert init[i] == eps[i];
        }
      }
    }
  }

  /** Each named endpoint's record comes from the last entry carrying that name. */
  lemma {:induction false} KeyedEndpointsLastWins(eps: seq<SdkEndpoint>, now: nat, i: nat)
    requires i < |eps| && eps[i].name.Some?
    requires forall j :: i < j < |eps| ==> eps[j].name != eps[i].name
    ensures eps[i].name.value in KeyedEndpoints(eps, now)
    ensures KeyedEndpoints(eps, now)[eps[i].name.value] == EndpointToState(eps[i], now)
  {
    if i < |eps| - 1 {
      var init := eps[..|eps| - 1];
      assert init[i] == eps[i];
      forall j | i < j < |init|
        ensures init[j].name != init[i].name
      {
        assert init[j] == eps[j];
      }
      KeyedEndpointsLastWins(init, now, i);
      assert eps[|eps| - 1].name != eps[i].name;
    }
  }

  // -------------------------------------------------------------- listing

  /** The records a page yields: the managed profiles, converted, in page order. */
  function ManagedStates(resourceGroup: string, profiles: seq<SdkProfile>, now: nat): seq<ProfileState>
  {
    if |profiles| == 0 then []
    else
      var rest := ManagedStates(resourceGroup, profiles[1..], now);
      if IsManagedByUs(profiles[0]) then [StateOf(resourceGroup, profiles[0], now)] + rest else rest
  }

  /** What listProfilesInResourceGroup returns: the pages' records, or None at the first failing page. */
  function ListedStates(resourceGroup: string, pages: seq<Page>, now: nat): Option<seq<ProfileState>>
  {
    if |pages| == 0 then Some([])
    else match pages[0]
      case PageError => None
      case PageOk(ps) =>
        match ListedStates(resourceGroup, pages[1..], now)
        case None => None
        case Some(rest) => Some(ManagedStates(resourceGroup, ps, now) + rest)
  }

  /** acc followed by what the rest of a listing yields. */
  function Prepend(acc: seq<ProfileState>, rest: Option<seq<ProfileState>>): Option<seq<ProfileState>>
  {
    match rest
    case None => None
    case Some(ps) => Some(acc + ps)
  }

  /** listProfilesInResourceGroup over the pages the pager hands out. */
  method ListProfilesInResourceGroup(resourceGroup: string, pages: seq<Page>, now: nat)
    returns (r: Option<seq<ProfileState>>)
    ensures r == ListedStates(resourceGroup, pages, now)
  {
    var acc: seq<ProfileState> := [];
    var i := 0;
    assert pages[0..] == pages;
    assert Prepend(acc, ListedStates(resourceGroup, pages, now)) == ListedStates(resourceGroup, pages, now) by {
      if ListedStates(resourceGroup, pages, now).Some? {
        assert acc + ListedStates(resourceGroup, pages, now).value == ListedStates(resourceGroup, pages, now).value;
      }
    }
    while i < |pages|
      invariant 0 <= i <= |pages|
      invariant ListedStates(resourceGroup, pages, now) == Prepend(acc, ListedStates(resourceGroup, pages[i..], now))
    {
      assert pages[i..][1..] == pages[i + 1..];
      if pages[i].PageError? {
        return None;
      }
      var j := 0;
      var ps := pages[i].profiles;
      ghost var acc0 := acc;
      assert ps[0..] == ps;
      while j < |ps|
        invariant 0 <= j <= |ps|
        invariant acc0 + ManagedStates(resourceGroup, ps, now) == acc + ManagedStates(resourceGroup, ps[j..], now)
      {
        assert ps[j..][1..] == ps[j + 1..];
        if IsManagedByUs(ps[j]) {
          var s := ProfileToState(resourceGroup, ps[j], now);
          acc := acc + [s];
        }
        j := j + 1;
      }
      assert ps[j..] == [];
      assert acc == acc0 + ManagedStates(resourceGroup, ps, now);
      ghost var tail := ListedStates(resourceGroup, pages[i + 1..], now);
      if tail.Some? {
        assert acc0 + (ManagedStates(resourceGroup, ps, now) + tail.value) == acc + tail.value;
      }
      i := i + 1;
    }
    assert acc + [] == acc;
    return Some(acc);
  }

  /** Per page, a record comes out for exactly the managed profiles, in order. */
  lemma {:induction false} ManagedStatesMeaning(resourceGroup: string, profiles: seq<SdkProfile>, now: nat)
    ensures |ManagedStates(resourceGroup, profiles, now)| <= |profiles|
    ensures forall s :: s in ManagedStates(resourceGroup, profiles, now) ==>
      exists p :: p in profiles && IsManagedByUs(p) && s == StateOf(resourceGroup, p, now)
    ensures forall p :: p in profiles && IsManagedByUs(p) ==> StateOf(resourceGroup, p, now) in ManagedStates(resourceGroup, profiles, now)
  {
    if |profiles| > 0 {
      ManagedStatesMeaning(resourceGroup, profiles[1..], now);
      assert forall p :: p in profiles ==> p == profiles[0] || p in profiles[1..];
    }
  }

  /** Filtering distributes over concatenation, so the order of pages is kept. */
  lemma {:induction false} ManagedStatesAppend(resourceGroup: string, a: seq<SdkProfile>, b: seq<SdkProfile>, now: nat)
    ensures ManagedStates(resourceGroup, a + b, now) == ManagedStates(resourceGroup, a, now) + ManagedStates(resourceGroup, b, now)
  {
    if |a| > 0 {
      assert (a + b)[0] == a[0];
      assert (a + b)[1..] == a[1..] + b;
      ManagedStatesAppend(resourceGroup, a[1..], b, now);
    } else {
      assert a + b == b;
    }
  }

  /** One failing page loses the whole group. */
  lemma {:induction false} FailingPageLosesGroup(resourceGroup: string, pages: seq<Page>, now: nat, i: nat)
    requires i < |pages| && pages[i].PageError?
    ensures ListedStates(resourceGroup, pages, now) == None
  {
    if i > 0 {
      FailingPageLosesGroup(resourceGroup, pages[1..], now, i - 1);
    }
  }

  // ---------------------------------------------------------------- sweep

  /** What SyncProfilesFromAzure returns: the groups' records in order, failing groups contributing nothing. */
  function SyncedStates(resourceGroups: seq<string>, pagesOf: string -> seq<Page>, now: nat): seq<ProfileState>
  {
    if |resourceGroups| == 0 then []
    else
      var init := SyncedStates(resourceGroups[..|resourceGroups| - 1], pagesOf, now);
      var rg := resourceGroups[|resourceGroups| - 1];
      match ListedStates(rg, pagesOf(rg), now)
      case None => init
      case Some(ps) => init + ps
  }

  /** SyncProfilesFromAzure: lists every group, skips the ones that fail, and never fails itself. */
  method SyncProfilesFromAzure(resourceGroups: seq<string>, pagesOf: string -> seq<Page>, now: nat)
    returns (all: seq<ProfileState>)
    ensures all == SyncedStates(resourceGroups, pagesOf, now)
  {
    all := [];
    var i := 0;
    while i < |resourceGroups|
      invariant 0 <= i <= |resourceGroups|
      invariant all == SyncedStates(resourceGroups[..i], pagesOf, now)
    {
      var rg := resourceGroups[i];
      var profiles := ListProfilesInResourceGroup(rg, pagesOf(rg), now);
      assert resourceGroups[..i + 1][..i] == resourceGroups[..i];
      if profiles.Some? {
        all := all + profiles.value;
      }
      i := i + 1;
    }
    assert resourceGroups[..i] == resourceGroups;
  }

  /** The sweep is the concatenation of its parts: groups are handled independently and in order. */
  lemma {:induction false} SyncedStatesAppend(a: seq<string>, b: seq<string>, pagesOf: string -> seq<Page>, now: nat)
    ensures SyncedStates(a + b, pagesOf, now) == SyncedStates(a, pagesOf, now) + SyncedStates(b, pagesOf, now)
    decreases |b|
  {
    if |b| > 0 {
      var b' := b[..|b| - 1];
      assert (a + b)[..|a + b| - 1] == a + b';
      SyncedStatesAppend(a, b', pagesOf, now);
    } else {
      assert a + b == a;
    }
  }

  /** A group whose listing fails contributes nothing; one that succeeds contributes its records. */
  lemma SyncedSingleGroup(rg: string, pagesOf: string -> seq<Page>, now: nat)
    ensures SyncedStates([rg], pagesOf, now) ==
      if ListedStates(rg, pagesOf(rg), now).Some? then ListedStates(rg, pagesOf(rg), now).value else []
  {
    assert [rg][..0] == [];
  }
}

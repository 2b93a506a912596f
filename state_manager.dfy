/**
 * The state mirror (pkg/state/manager.go): a cache of profile records keyed
 * by vanity hostname. Reads hand out copies and treat an expired record as
 * absent without removing it; writes store copies and stamp the cache time.
 */
module StateManager {
  import opened Wrappers
  import opened State

  /** What a read of hostname at time now sees in the mirror m. */
  function Visible(m: map<string, ProfileState>, ttl: int, hostname: string, now: int): Option<ProfileState>
  {
    if hostname in m && !IsExpired(m[hostname], ttl, now) then Some(m[hostname]) else None
  }

  /** The record p as SetProfile stores it at time now. */
  function Stamped(p: ProfileState, now: nat): ProfileState
  {
    p.(cachedAt := now)
  }

  /** The record a SetEndpoint at time now leaves behind. */
  function WithEndpoint(p: ProfileState, name: string, e: EndpointState, now: nat): ProfileState
  {
    p.(endpoints := p.endpoints[name := e], updatedAt := now, cachedAt := now)
  }

  /** The record a DeleteEndpoint at time now leaves behind. */
  function WithoutEndpoint(p: ProfileState, name: string, now: nat): ProfileState
  {
    p.(endpoints := p.endpoints - {name}, updatedAt := now, cachedAt := now)
  }

  /** The sum of the endpoint-map sizes of the records at keys. */
  ghost function EndpointTotal(m: map<string, ProfileState>, keys: set<string>): nat
    requires keys <= m.Keys
    decreases |keys|
  {
    if keys == {} then 0
    else
      var k :| k in keys;
      |m[k].endpoints| + EndpointTotal(m, keys - {k})
  }

  /** The keys of the expired records. */
  function ExpiredKeys(m: map<string, ProfileState>, ttl: int, now: int): set<string>
  {
    set k | k in m && IsExpired(m[k], ttl, now)
  }

  /** The summary GetStats reports. */
  datatype Stats = Stats(totalProfiles: nat, totalEndpoints: nat, expiredProfiles: nat, cacheTtl: int)

  /** EndpointTotal does not depend on the order in which keys are taken out. */
  lemma {:induction false} EndpointTotalRemove(m: map<string, ProfileState>, keys: set<string>, k: string)
    requires keys <= m.Keys && k in keys
    ensures EndpointTotal(m, keys) == |m[k].endpoints| + EndpointTotal(m, keys - {k})
    decreases |keys|
  {
    var j :| j in keys && EndpointTotal(m, keys) == |m[j].endpoints| + EndpointTotal(m, keys - {j});
    if j != k {
      EndpointTotalRemove(m, keys - {j}, k);
      EndpointTotalRemove(m, keys - {k}, j);
      assert keys - {j} - {k} == keys - {k} - {j};
    }
  }

  class Manager {
    /** The records, keyed by vanity hostname. */
    var profiles: map<string, ProfileState>
    const cacheTtl: int

    /** NewManager: an empty mirror with the given TTL. */
    constructor(cacheTtl: int)
      ensures profiles == map[] && this.cacheTtl == cacheTtl
    {
      profiles := map[];
      this.cacheTtl := cacheTtl;
    }

    /** GetProfile: a copy of a fresh record, or absent for a missing or expired one. */
    method GetProfile(hostname: string, now: int) returns (r: Option<ProfileState>)
      ensures r == Visible(profiles, cacheTtl, hostname, now)
      ensures r.Some? ==> hostname in profiles && r.value == profiles[hostname]
      ensures hostname in profiles && IsExpired(profiles[hostname], cacheTtl, now) ==> r.None?
    {
      if hostname !in profiles {
        return None;
      }
      var profile := profiles[hostname];
      if IsExpired(profile, cacheTtl, now) {
        return None;
      }
      var c := CloneProfile(profile);
      return Some(c);
    }

    /** SetProfile: stamps the caller's record with now and stores a copy of it. */
    method SetProfile(hostname: string, profile: ProfileState, now: nat) returns (stamped: ProfileState)
      modifies this
      ensures stamped == Stamped(profile, now)
      ensures profiles == old(profiles)[hostname := stamped]
    {
      stamped := profile.(cachedAt := now);
      var c := CloneProfile(stamped);
      profiles := profiles[hostname := c];
    }

    /** DeleteProfile */
    method DeleteProfile(hostname: string)
      modifies this
      ensures profiles == old(profiles) - {hostname}
    {
      profiles := profiles - {hostname};
    }

    /** ListProfiles: one copy per stored record, expired ones included, in iteration order keys. */
    method ListProfiles() returns (r: seq<ProfileState>, ghost keys: seq<string>)
      ensures |r| == |keys| == |profiles|
      ensures forall i :: 0 <= i < |keys| ==> keys[i] in profiles && r[i] == profiles[keys[i]]
      ensures forall i, j :: 0 <= i < j < |keys| ==> keys[i] != keys[j]
      ensures forall k :: k in profiles ==> k in keys
    {
      r := [];
      keys := [];
      var pending := profiles.Keys;
      while pending != {}
        invariant pending <= profiles.Keys
        invariant |r| == |keys|
        invariant forall i :: 0 <= i < |keys| ==> keys[i] in profiles && keys[i] !in pending && r[i] == profiles[keys[i]]
        invariant forall i, j :: 0 <= i < j < |keys| ==> keys[i] != keys[j]
        invariant forall k :: k in profiles && k !in pending ==> k in keys
        invariant |keys| + |pending| == |profiles.Keys|
        decreases |pending|
      {
        var k :| k in pending;
        var c := CloneProfile(profiles[k]);
        r := r + [c];
        keys := keys + [k];
        pending := pending - {k};
      }
      assert |profiles.Keys| == |profiles|;
    }

    /** GetProfileByName: a copy of some record with that profile name, ignoring expiry. */
    method GetProfileByName(profileName: string) returns (r: Option<ProfileState>)
      ensures r.None? <==> forall k :: k in profiles ==> profiles[k].profileName != profileName
      ensures r.Some? ==> r.value.profileName == profileName && exists k :: k in profiles && profiles[k] == r.value
    {
      var pending := profiles.Keys;
      while pending != {}
        invariant pending <= profiles.Keys
        invariant forall k :: k in profiles && k !in pending ==> profiles[k].profileName != profileName
        decreases |pending|
      {
        var k :| k in pending;
        if profiles[k].profileName == profileName {
          var c := CloneProfile(profiles[k]);
          return Some(c);
        }
        pending := pending - {k};
      }
      return None;
    }

    /** Clear */
    method Clear()
      modifies this
      ensures profiles == map[]
    {
      profiles := map[];
    }

    /** Count */
    method Count() returns (n: nat)
      ensures n == |profiles|
    {
      return |profiles|;
    }

    /** GetEndpoint: through GetProfile, so an expired record hides its endpoints too. */
    method GetEndpoint(hostname: string, endpointName: string, now: int) returns (r: Option<EndpointState>)
      ensures r.Some? <==>
        Visible(profiles, cacheTtl, hostname, now).Some? &&
        endpointName in Visible(profiles, cacheTtl, hostname, now).value.endpoints
      ensures r.Some? ==> r.value == profiles[hostname].endpoints[endpointName]
    {
      var profile := GetProfile(hostname, now);
      if profile.None? {
        return None;
      }
      if endpointName !in profile.value.endpoints {
        return None;
      }
      return Some(CloneEndpoint(profile.value.endpoints[endpointName]));
    }

    /** SetEndpoint: no effect on a missing hostname; otherwise writes one endpoint and re-stamps the record. */
    method SetEndpoint(hostname: string, endpointName: string, endpoint: EndpointState, now: nat)
      modifies this
      ensures hostname !in old(profiles) ==> profiles == old(profiles)
      ensures hostname in old(profiles) ==>
        profiles == old(profiles)[hostname := WithEndpoint(old(profiles)[hostname], endpointName, endpoint, now)]
    {
      if hostname !in profiles {
        return;
      }
      var profile := profiles[hostname];
      profile := profile.(endpoints := profile.endpoints[endpointName := CloneEndpoint(endpoint)]);
      profile := profile.(updatedAt := now, cachedAt := now);
      profiles := profiles[hostname := profile];
    }

    /** DeleteEndpoint: no effect on a missing hostname; otherwise removes one endpoint and re-stamps the record. */
    method DeleteEndpoint(hostname: string, endpointName: string, now: nat)
      modifies this
      ensures hostname !in old(profiles) ==> profiles == old(profiles)
      ensures hostname in old(profiles) ==>
        profiles == old(profiles)[hostname := WithoutEndpoint(old(profiles)[hostname], endpointName, now)]
    {
      if hostname !in profiles {
        return;
      }
      var profile := profiles[hostname];
      profile := profile.(endpoints := profile.endpoints - {endpointName});
      profile := profile.(updatedAt := now, cachedAt := now);
      profiles := profiles[hostname := profile];
    }

    /** GetStats: the record count, the total endpoint count and the number of expired records. */
    method GetStats(now: int) returns (s: Stats)
      ensures s.totalProfiles == |profiles|
      ensures s.totalEndpoints == EndpointTotal(profiles, profiles.Keys)
      ensures s.expiredProfiles == |ExpiredKeys(profiles, cacheTtl, now)|
      ensures s.cacheTtl == cacheTtl
    {
      var m, ttl := profiles, cacheTtl;
      var totalEndpoints := 0;
      var expiredProfiles := 0;
      var pending := m.Keys;
      // expired: the keys already visited whose records are expired
      ghost var expired: set<string> := {};
      while pending != {}
        invariant pending <= m.Keys
        invariant totalEndpoints + EndpointTotal(m, pending) == EndpointTotal(m, m.Keys)
        invariant expired == ExpiredKeys(m, ttl, now) - pending
        invariant expiredProfiles == |expired|
        decreases |pending|
      {
        var k :| k in pending;
        EndpointTotalRemove(m, pending, k);
        assert k !in expired;
        totalEndpoints := totalEndpoints + |m[k].endpoints|;
        if IsExpired(m[k], ttl, now) {
          expiredProfiles := expiredProfiles + 1;
          expired := expired + {k};
        }
        pending := pending - {k};
      }
      return Stats(|m|, totalEndpoints, expiredProfiles, ttl);
    }
  }

  // -------------------------------------------------------------- lemmas

  /** Within the TTL, a read after SetProfile sees the stored record, stamped with the time of the Set. */
  lemma SetThenGet(m: map<string, ProfileState>, ttl: int, hostname: string, p: ProfileState, setAt: nat, now: int)
    requires setAt != ZeroTime && now <= setAt + ttl
    ensures Visible(m[hostname := Stamped(p, setAt)], ttl, hostname, now) == Some(Stamped(p, setAt))
    ensures Visible(m[hostname := Stamped(p, setAt)], ttl, hostname, now).value.cachedAt == setAt
  {
  }

  /** A Set at the zero time is never visible: the record counts as never cached. */
  lemma SetAtZeroTimeInvisible(m: map<string, ProfileState>, ttl: int, hostname: string, p: ProfileState, now: int)
    ensures Visible(m[hostname := Stamped(p, ZeroTime)], ttl, hostname, now) == None
  {
  }

  /** Past the TTL, the same record is hidden. */
  lemma SetThenGetExpired(m: map<string, ProfileState>, ttl: int, hostname: string, p: ProfileState, setAt: nat, now: int)
    requires now > setAt + ttl
    ensures Visible(m[hostname := Stamped(p, setAt)], ttl, hostname, now) == None
  {
  }

  /** Writing or deleting one hostname leaves what every other hostname sees unchanged. */
  lemma OtherKeysUnaffected(m: map<string, ProfileState>, ttl: int, hostname: string, other: string, p: ProfileState, now: int)
    requires other != hostname
    ensures Visible(m[hostname := p], ttl, other, now) == Visible(m, ttl, other, now)
    ensures Visible(m - {hostname}, ttl, other, now) == Visible(m, ttl, other, now)
  {
  }

  /** After DeleteProfile, a read reports absent. */
  lemma DeleteThenGet(m: map<string, ProfileState>, ttl: int, hostname: string, now: int)
    ensures Visible(m - {hostname}, ttl, hostname, now) == None
  {
  }

  /** SetEndpoint re-stamps the record, so its endpoint is visible for another full TTL. */
  lemma SetEndpointRefreshes(p: ProfileState, name: string, e: EndpointState, ttl: int, setAt: nat, now: int)
    requires setAt != ZeroTime && setAt <= now <= setAt + ttl
    ensures !IsExpired(WithEndpoint(p, name, e, setAt), ttl, now)
    ensures WithEndpoint(p, name, e, setAt).endpoints[name] == e
    ensures forall k :: k in p.endpoints && k != name ==> WithEndpoint(p, name, e, setAt).endpoints[k] == p.endpoints[k]
  {
  }

  /** DeleteEndpoint removes only the named endpoint. */
  lemma DeleteEndpointOnlyNamed(p: ProfileState, name: string, now: nat)
    ensures name !in WithoutEndpoint(p, name, now).endpoints
    ensures forall k :: k in p.endpoints && k != name <==> k in WithoutEndpoint(p, name, now).endpoints
  {
  }

  /** Adding a record adds its endpoint count to the total. */
  lemma EndpointTotalAdd(m: map<string, ProfileState>, hostname: string, p: ProfileState)
    requires hostname !in m
    ensures EndpointTotal(m[hostname := p], m.Keys + {hostname}) == |p.endpoints| + EndpointTotal(m, m.Keys)
  {
    var m' := m[hostname := p];
    EndpointTotalRemove(m', m.Keys + {hostname}, hostname);
    assert m.Keys + {hostname} - {hostname} == m.Keys;
    EndpointTotalSameRecords(m', m, m.Keys);
  }

  /** EndpointTotal reads only the records at keys. */
  lemma {:induction false} EndpointTotalSameRecords(m: map<string, ProfileState>, m': map<string, ProfileState>, keys: set<string>)
    requires keys <= m.Keys && keys <= m'.Keys
    requires forall k :: k in keys ==> m[k] == m'[k]
    ensures EndpointTotal(m, keys) == EndpointTotal(m', keys)
    decreases |keys|
  {
    if keys != {} {
      var k :| k in keys && EndpointTotal(m, keys) == |m[k].endpoints| + EndpointTotal(m, keys - {k});
      EndpointTotalRemove(m', keys, k);
      EndpointTotalSameRecords(m, m', keys - {k});
    }
  }
}

/**
 * The records held by the state mirror (pkg/state/types.go). Times are
 * natural numbers, with 0 standing for the zero time; the clock is an
 * explicit argument.
 */
module State {

  datatype EndpointState = EndpointState(
    endpointName: string,
    endpointType: string,
    target: string,
    weight: int,
    priority: int,
    status: string,
    location: string,
    createdAt: nat,
    updatedAt: nat)

  datatype ProfileState = ProfileState(
    profileName: string,
    resourceGroup: string,
    hostname: string,
    fqdn: string,
    routingMethod: string,
    dnsTtl: int,
    endpoints: map<string, EndpointState>,
    tags: map<string, string>,
    createdAt: nat,
    updatedAt: nat,
    cachedAt: nat)

  /** The zero time. */
  const ZeroTime: nat := 0

  /** EndpointState.Clone: a new record with each of the nine fields copied. */
  function CloneEndpoint(es: EndpointState): (c: EndpointState)
    ensures c == es
  {
    EndpointState(
      endpointName := es.endpointName,
      endpointType := es.endpointType,
      target := es.target,
      weight := es.weight,
      priority := es.priority,
      status := es.status,
      location := es.location,
      createdAt := es.createdAt,
      updatedAt := es.updatedAt)
  }

  /**
   * ProfileState.Clone: the scalar fields copied, then the endpoint map
   * filled with a clone of each endpoint and the tag map filled entry by entry.
   */
  method CloneProfile(ps: ProfileState) returns (c: ProfileState)
    ensures c == ps
  {
    var endpoints := CloneEndpoints(ps.endpoints);
    var tags := CopyTags(ps.tags);
    c := ProfileState(
      profileName := ps.profileName,
      resourceGroup := ps.resourceGroup,
      hostname := ps.hostname,
      fqdn := ps.fqdn,
      routingMethod := ps.routingMethod,
      dnsTtl := ps.dnsTtl,
      endpoints := endpoints,
      tags := tags,
      createdAt := ps.createdAt,
      updatedAt := ps.updatedAt,
      cachedAt := ps.cachedAt);
  }

  /** The endpoint loop of ProfileState.Clone: a clone of each endpoint under its key. */
  method CloneEndpoints(m: map<string, EndpointState>) returns (r: map<string, EndpointState>)
    ensures r == m
  {
    r := map[];
    var pending := m.Keys;
    while pending != {}
      invariant pending <= m.Keys
      invariant r == map k | k in m.Keys - pending :: m[k]
      decreases |pending|
    {
      var k :| k in pending;
      r := r[k := CloneEndpoint(m[k])];
      pending := pending - {k};
    }
    assert r == m;
  }

  /** The tag loop of ProfileState.Clone: each tag copied under its key. */
  method CopyTags(m: map<string, string>) returns (r: map<string, string>)
    ensures r == m
  {
    r := map[];
    var pending := m.Keys;
    while pending != {}
      invariant pending <= m.Keys
      invariant r == map k | k in m.Keys - pending :: m[k]
      decreases |pending|
    {
      var k :| k in pending;
      r := r[k := m[k]];
      pending := pending - {k};
    }
    assert r == m;
  }

  /** IsExpired: never cached, or cached more than ttl ago. */
  predicate IsExpired(ps: ProfileState, ttl: int, now: int)
  {
    ps.cachedAt == ZeroTime || now - ps.cachedAt > ttl
  }

  /** A record with the zero time is expired under every TTL and at every time. */
  lemma ZeroTimeExpired(ps: ProfileState, ttl: int, now: int)
    requires ps.cachedAt == ZeroTime
    ensures IsExpired(ps, ttl, now)
  {
  }

  /** A cached record is expired exactly when strictly more than ttl has passed; one exactly ttl old is fresh. */
  lemma ExpiredIff(ps: ProfileState, ttl: int, now: int)
    requires ps.cachedAt != ZeroTime
    ensures IsExpired(ps, ttl, now) <==> now > ps.cachedAt + ttl
    ensures !IsExpired(ps, ttl, ps.cachedAt + ttl)
  {
  }

  /** Expiry is monotone in time: once expired, a record stays expired. */
  lemma ExpiryMonotone(ps: ProfileState, ttl: int, now: int, later: int)
    requires now <= later && IsExpired(ps, ttl, now)
    ensures IsExpired(ps, ttl, later)
  {
  }

  /** A longer TTL never expires a record that a shorter one keeps. */
  lemma ExpiryAntitoneInTtl(ps: ProfileState, ttl: int, longer: int, now: int)
    requires ttl <= longer && IsExpired(ps, longer, now)
    ensures IsExpired(ps, ttl, now)
  {
  }
}

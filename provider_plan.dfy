/**
 * The decisions createEndpoint, updateEndpoint and deleteEndpoint take
 * before any remote call (pkg/provider/provider.go): which changes are
 * skipped, which are rejected with an error, and, for the rest, the
 * profile and endpoint settings that will be sent.
 */
module ProviderPlan {
  import opened Wrappers
  import opened Annotations
  import opened Validator
  import opened Naming
  import TM = TrafficManager
  import Sync
  import Remote

  // ----------------------------------------- the data of pkg/provider/types.go

  datatype ProviderSpecificProperty = ProviderSpecificProperty(name: string, value: string)

  datatype Endpoint = Endpoint(
    dnsName: string,
    targets: seq<string>,
    recordType: string,
    setIdentifier: string,
    recordTtl: int,
    labels: map<string, string>,
    providerSpecific: seq<ProviderSpecificProperty>)

  datatype Changes = Changes(
    create: seq<Endpoint>,
    updateOld: seq<Endpoint>,
    updateNew: seq<Endpoint>,
    delete: seq<Endpoint>)

  datatype ProviderError =
    | ParseFailed(parseError: ParseError)
    | Invalid(validationError: ValidationError)
    | ProfileUnavailable(profile: Remote.Key)
    | EndpointCreateFailed(endpointName: string)
    | ProfileUpdateFailed(profile: Remote.Key)
    | EndpointUpdateFailed(endpointName: string)

  /** What an operation decides before touching anything. */
  datatype Decision<P> = Skip | Reject(error: ProviderError) | Proceed(plan: P)

  // ------------------------------------------------------- merged annotations

  /** The annotation map createEndpoint parses: Labels, then each ProviderSpecific entry written over it. */
  function Merged(labels: map<string, string>, props: seq<ProviderSpecificProperty>): map<string, string>
  {
    if |props| == 0 then labels
    else Merged(labels, props[..|props| - 1])[props[|props| - 1].name := props[|props| - 1].value]
  }

  /** The two copy loops of createEndpoint. */
  method MergeAnnotations(labels: map<string, string>, props: seq<ProviderSpecificProperty>)
    returns (merged: map<string, string>)
    ensures merged == Merged(labels, props)
  {
    merged := map[];
    var pending := labels.Keys;
    while pending != {}
      invariant pending <= labels.Keys
      invariant merged == map k | k in labels.Keys - pending :: labels[k]
      decreases |pending|
    {
      var k :| k in pending;
      merged := merged[k := labels[k]];
      pending := pending - {k};
    }
    assert merged == labels;
    var i := 0;
    while i < |props|
      invariant 0 <= i <= |props|
      invariant merged == Merged(labels, props[..i])
    {
      assert props[..i + 1][..i] == props[..i];
      merged := merged[props[i].name := props[i].value];
      i := i + 1;
    }
    assert props[..i] == props;
  }

  /** A key is merged from the last ProviderSpecific entry carrying it, and from Labels only when no entry does. */
  lemma {:induction false} MergedMeaning(labels: map<string, string>, props: seq<ProviderSpecificProperty>)
    ensures forall k :: k in Merged(labels, props) <==> k in labels || exists i :: 0 <= i < |props| && props[i].name == k
    ensures forall k :: k in labels && (forall i :: 0 <= i < |props| ==> props[i].name != k) ==> Merged(labels, props)[k] == labels[k]
    ensures forall i :: 0 <= i < |props| && (forall j :: i < j < |props| ==> props[j].name != props[i].name) ==>
      Merged(labels, props)[props[i].name] == props[i].value
  {
    if |props| > 0 {
      var init := props[..|props| - 1];
      MergedMeaning(labels, init);
      assert forall i :: 0 <= i < |init| ==> init[i] == props[i];
    }
  }

  // ------------------------------------------------------------------ names

  /** The hostname the profile is published for: the configured one, or the record's own name. */
  function Vanity(c: Config, dnsName: string): string
  {
    if c.hostname != "" then c.hostname else dnsName
  }

  /** The configuration with empty profile and endpoint names generated; the profile name from profileFrom. */
  function Named(c: Config, profileFrom: string, ep: Endpoint): (r: Config)
    ensures r.profileName != "" && r.enabled == c.enabled && r.resourceGroup == c.resourceGroup
    ensures c.profileName != "" ==> r.profileName == c.profileName
    ensures c.endpointName != "" ==> r.endpointName == c.endpointName
  {
    c.(
      profileName := if c.profileName == "" then GenerateProfileName(profileFrom) else c.profileName,
      endpointName := if c.endpointName == "" then GenerateEndpointName(ep.dnsName, ep.targets) else c.endpointName)
  }

  /** The profile settings sent for c, with the hostname tag written over the managedBy tag map. */
  function TaggedProfile(c: Config, hostname: string): (p: TM.ProfileConfig)
    ensures p.tags == map[ManagedByKey := ManagedByValue, Sync.HostnameTag := hostname]
    ensures p.profileName == c.profileName && p.resourceGroup == c.resourceGroup
  {
    var p := ToProfileConfig(c);
    p.(tags := p.tags[Sync.HostnameTag := hostname])
  }

  const ManagedByKey: string := "managedBy"

  /** The targets createEndpoint registers: the record's own name for "A" records or an empty target list. */
  function CreateTargets(ep: Endpoint): (ts: seq<string>)
    ensures |ts| >= 1
    ensures ep.recordType != "A" && |ep.targets| > 0 ==> ts == ep.targets
    ensures ep.recordType == "A" || |ep.targets| == 0 ==> ts == [ep.dnsName]
  {
    if ep.recordType != "A" && |ep.targets| > 0 then ep.targets else [ep.dnsName]
  }

  /** The name of the i-th endpoint: indexed when the record has several targets, generated when empty. */
  function PlannedEndpointName(configured: string, recordTargets: nat, target: string, i: nat): string
  {
    if recordTargets > 1 && configured != "" then Indexed(configured, i)
    else if configured == "" then GenerateEndpointNameFromTarget(target, i)
    else configured
  }

  function PlannedEndpoint(c: Config, ep: Endpoint, targets: seq<string>, i: nat): (e: TM.EndpointConfig)
    requires i < |targets|
    ensures e.target == targets[i] && e.weight == c.weight && e.priority == c.priority
    ensures e.status == c.endpointStatus && e.endpointType == c.endpointType
  {
    var e := ToEndpointConfig(c, targets[i]);
    e.(endpointName := PlannedEndpointName(e.endpointName, |ep.targets|, targets[i], i))
  }

  // ----------------------------------------------------------------- create

  datatype CreatePlan = CreatePlan(
    config: Config,
    vanity: string,
    profile: TM.ProfileConfig,
    endpoints: seq<TM.EndpointConfig>)

  function BuildCreatePlan(c: Config, ep: Endpoint): CreatePlan
  {
    var vanity := Vanity(c, ep.dnsName);
    var named := Named(c, vanity, ep);
    var targets := CreateTargets(ep);
    CreatePlan(named, vanity, TaggedProfile(named, vanity),
      seq(|targets|, i requires 0 <= i < |targets| => PlannedEndpoint(named, ep, targets, i)))
  }

  /** createEndpoint up to its first remote call. */
  function PlanCreate(ep: Endpoint): Decision<CreatePlan>
  {
    if ep.recordType == "TXT" then Skip
    else match ParseConfig(Merged(ep.labels, ep.providerSpecific))
      case Failure(e) => Reject(ParseFailed(e))
      case Success(c) =>
        if !c.enabled then Skip
        else match Validation(c)
          case Some(e) => Reject(Invalid(e))
          case None => Proceed(BuildCreatePlan(c, ep))
  }

  /** A create goes ahead exactly for an enabled, valid configuration on a record that is not TXT. */
  lemma CreateDecision(ep: Endpoint)
    ensures ep.recordType == "TXT" ==> PlanCreate(ep) == Skip
    ensures PlanCreate(ep).Proceed? <==>
      && ep.recordType != "TXT"
      && ParseConfig(Merged(ep.labels, ep.providerSpecific)).Success?
      && ParseConfig(Merged(ep.labels, ep.providerSpecific)).value.enabled
      && Validation(ParseConfig(Merged(ep.labels, ep.providerSpecific)).value).None?
    ensures PlanCreate(ep).Reject? && ParseConfig(Merged(ep.labels, ep.providerSpecific)).Success? ==>
      PlanCreate(ep).error == Invalid(Validation(ParseConfig(Merged(ep.labels, ep.providerSpecific)).value).value)
  {
  }

  /** The planned endpoints follow the targets, carry the configuration's weight, priority and status, and point at the record's name for "A" records. */
  lemma CreatePlanShape(ep: Endpoint, p: CreatePlan)
    requires PlanCreate(ep) == Proceed(p)
    ensures |p.endpoints| == |CreateTargets(ep)| >= 1
    ensures forall i :: 0 <= i < |p.endpoints| ==> p.endpoints[i].target == CreateTargets(ep)[i]
    ensures forall i :: 0 <= i < |p.endpoints| ==>
      p.endpoints[i].weight == p.config.weight && p.endpoints[i].status == p.config.endpointStatus
    ensures ep.recordType == "A" ==> |p.endpoints| == 1 && p.endpoints[0].target == ep.dnsName
    ensures p.vanity == (if p.config.hostname != "" then p.config.hostname else ep.dnsName)
    ensures p.profile.tags[Sync.HostnameTag] == p.vanity
  {
  }

  /** Two positions never get the same endpoint name. */
  lemma PlannedNamesDistinctAt(configured: string, ep: Endpoint, targets: seq<string>, i: nat, j: nat)
    requires targets == CreateTargets(ep) && i < j < |targets|
    requires configured == "" ==> |targets[0]| == 0
    ensures PlannedEndpointName(configured, |ep.targets|, targets[i], i) != PlannedEndpointName(configured, |ep.targets|, targets[j], j)
  {
    assert |ep.targets| > 1;
    var a := PlannedEndpointName(configured, |ep.targets|, targets[i], i);
    var b := PlannedEndpointName(configured, |ep.targets|, targets[j], j);
    if configured != "" {
      if a == b {
        IndexedDistinct(configured, i, configured, j);
      }
    } else if i == 0 {
      assert a == Sanitized(targets[0]) == [];
      assert |b| > 0;
    } else if a == b {
      IndexedDistinct(Sanitized(targets[i]), i, Sanitized(targets[j]), j);
    }
  }

  /** The endpoints a create plans have pairwise distinct names, so none overwrites another. */
  lemma PlannedNamesDistinct(ep: Endpoint, p: CreatePlan)
    requires PlanCreate(ep) == Proceed(p)
    ensures forall i, j :: 0 <= i < j < |p.endpoints| ==> p.endpoints[i].endpointName != p.endpoints[j].endpointName
  {
    var targets := CreateTargets(ep);
    var configured := p.config.endpointName;
    if configured == "" && |targets| > 1 {
      assert targets == ep.targets;
      SanitizedShape(ep.targets[0]);
    }
    forall i, j | 0 <= i < j < |p.endpoints|
      ensures p.endpoints[i].endpointName != p.endpoints[j].endpointName
    {
      PlannedNamesDistinctAt(configured, ep, targets, i, j);
    }
  }

  /** An "A" record with several targets still gets the index suffix, on its single endpoint. */
  lemma ARecordSuffix(ep: Endpoint, p: CreatePlan)
    requires PlanCreate(ep) == Proceed(p)
    requires ep.recordType == "A" && |ep.targets| > 1 && p.config.endpointName != ""
    ensures |p.endpoints| == 1 && p.endpoints[0].endpointName == Indexed(p.config.endpointName, 0)
  {
  }

  // ----------------------------------------------------------------- update

  datatype UpdatePlan = UpdatePlan(
    config: Config,
    hostname: string,
    profile: TM.ProfileConfig,
    profileChanged: bool,
    endpointsChanged: bool,
    endpoints: seq<TM.EndpointConfig>)

  /** Any of the six profile-level settings differs. */
  predicate ProfileSettingsDiffer(o: Config, n: Config)
  {
    || o.routingMethod != n.routingMethod
    || o.dnsTtl != n.dnsTtl
    || o.monitorProtocol != n.monitorProtocol
    || o.monitorPort != n.monitorPort
    || o.monitorPath != n.monitorPath
    || o.healthChecksEnabled != n.healthChecksEnabled
  }

  function BuildUpdatePlan(c: Config, oldParsed: Result<Config, ParseError>, newEp: Endpoint): UpdatePlan
  {
    var named := Named(c, newEp.dnsName, newEp);
    UpdatePlan(named, newEp.dnsName, TaggedProfile(named, newEp.dnsName),
      oldParsed.Failure? || ProfileSettingsDiffer(oldParsed.value, named),
      oldParsed.Success? && (oldParsed.value.weight != named.weight || oldParsed.value.endpointStatus != named.endpointStatus),
      seq(|newEp.targets|, i requires 0 <= i < |newEp.targets| => ToEndpointConfig(named, newEp.targets[i])))
  }

  /** updateEndpoint up to its first remote call; both records are read from Labels only. */
  function PlanUpdate(oldEp: Endpoint, newEp: Endpoint): Decision<UpdatePlan>
  {
    match ParseConfig(newEp.labels)
    case Failure(e) => Reject(ParseFailed(e))
    case Success(c) =>
      if !c.enabled then Skip
      else match Validation(c)
        case Some(e) => Reject(Invalid(e))
        case None => Proceed(BuildUpdatePlan(c, ParseConfig(oldEp.labels), newEp))
  }

  /**
   * The profile is re-sent exactly when the old labels do not parse or one
   * of the six settings changed; the endpoints exactly when the old labels
   * parse and the weight or the status changed.
   */
  lemma UpdateDecision(oldEp: Endpoint, newEp: Endpoint, p: UpdatePlan)
    requires PlanUpdate(oldEp, newEp) == Proceed(p)
    ensures p.profileChanged <==> ParseConfig(oldEp.labels).Failure? || ProfileSettingsDiffer(ParseConfig(oldEp.labels).value, p.config)
    ensures p.endpointsChanged <==>
      && ParseConfig(oldEp.labels).Success?
      && (ParseConfig(oldEp.labels).value.weight != p.config.weight
          || ParseConfig(oldEp.labels).value.endpointStatus != p.config.endpointStatus)
    ensures |p.endpoints| == |newEp.targets|
    ensures forall i :: 0 <= i < |p.endpoints| ==> p.endpoints[i].target == newEp.targets[i] && p.endpoints[i].endpointName == p.config.endpointName
    ensures p.hostname == newEp.dnsName && p.profile.tags[Sync.HostnameTag] == newEp.dnsName
  {
  }

  /** ProviderSpecific entries play no part in an update. */
  lemma UpdateIgnoresProviderSpecific(oldEp: Endpoint, newEp: Endpoint, a: seq<ProviderSpecificProperty>, b: seq<ProviderSpecificProperty>)
    ensures PlanUpdate(oldEp.(providerSpecific := a), newEp) == PlanUpdate(oldEp, newEp)
    ensures PlanUpdate(oldEp, newEp.(providerSpecific := b)) == PlanUpdate(oldEp, newEp.(providerSpecific := []))
  {
  }

  /** Changing only the weight of an enabled, valid configuration re-sends no profile but every endpoint. */
  lemma WeightOnlyChange(oldEp: Endpoint, newEp: Endpoint, p: UpdatePlan)
    requires PlanUpdate(oldEp, newEp) == Proceed(p)
    requires ParseConfig(oldEp.labels).Success?
    requires ParseConfig(oldEp.labels).value == ParseConfig(newEp.labels).value.(weight := ParseConfig(oldEp.labels).value.weight)
    requires ParseConfig(oldEp.labels).value.weight != ParseConfig(newEp.labels).value.weight
    ensures !p.profileChanged && p.endpointsChanged
  {
  }

  // ----------------------------------------------------------------- delete

  datatype DeletePlan = DeletePlan(
    key: Remote.Key,
    vanity: string,
    endpointName: string,
    endpointType: string,
    attempts: nat)

  /** deleteEndpoint up to its first remote call: no validation, and the profile name comes from the record's own name. */
  function PlanDelete(ep: Endpoint): Decision<DeletePlan>
  {
    match ParseConfig(ep.labels)
    case Failure(e) => Reject(ParseFailed(e))
    case Success(c) =>
      if !c.enabled then Skip
      else
        var named := Named(c, ep.dnsName, ep);
        Proceed(DeletePlan(Remote.Key(named.resourceGroup, named.profileName), Vanity(c, ep.dnsName),
          named.endpointName, named.endpointType, |ep.targets|))
  }

  /** A delete goes ahead for every enabled configuration, valid or not, and tries once per target. */
  lemma DeleteDecision(ep: Endpoint)
    ensures PlanDelete(ep).Proceed? <==> ParseConfig(ep.labels).Success? && ParseConfig(ep.labels).value.enabled
    ensures PlanDelete(ep).Reject? <==> ParseConfig(ep.labels).Failure?
    ensures PlanDelete(ep).Proceed? ==> PlanDelete(ep).plan.attempts == |ep.targets|
  {
  }

  /**
   * With a vanity hostname and no configured profile name, create and
   * delete address different profiles whenever the two hostnames sanitize
   * differently: create names the profile after the vanity hostname, delete
   * after the record's own name.
   */
  lemma CreateAndDeleteNameProfilesDifferently(ep: Endpoint, cp: CreatePlan, dp: DeletePlan)
    requires PlanCreate(ep) == Proceed(cp) && PlanDelete(ep) == Proceed(dp)
    requires ep.recordType != "TXT" && ep.providerSpecific == []
    requires ParseConfig(ep.labels).value.profileName == ""
    requires Sanitized(cp.vanity) != Sanitized(ep.dnsName)
    ensures Remote.KeyOf(cp.profile) != dp.key
  {
    assert Merged(ep.labels, ep.providerSpecific) == ep.labels;
    ProfileNameCollidesIff(cp.vanity, ep.dnsName);
  }
}

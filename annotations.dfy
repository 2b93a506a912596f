/**
 * The annotation configuration model (pkg/annotations/constants.go and
 * pkg/annotations/parser.go): annotation keys, default values, the parse
 * of a flat key/value annotation set into a typed configuration, and its
 * projection onto the profile and endpoint records of the control plane.
 */
module Annotations {
  import opened Wrappers
  import opened Decimal
  import TM = TrafficManager

  // ---------------------------------------------------------------- keys

  const AnnotationPrefix: string := "webhook/traffic-manager-"

  const AnnotationEnabled: string := "webhook/traffic-manager-enabled"
  const AnnotationProfileName: string := "webhook/traffic-manager-profile-name"
  const AnnotationResourceGroup: string := "webhook/traffic-manager-resource-group"
  const AnnotationHostname: string := "webhook/traffic-manager-hostname"
  const AnnotationRoutingMethod: string := "webhook/traffic-manager-routing-method"
  const AnnotationWeight: string := "webhook/traffic-manager-weight"
  const AnnotationPriority: string := "webhook/traffic-manager-priority"
  const AnnotationEndpointName: string := "webhook/traffic-manager-endpoint-name"
  const AnnotationEndpointLocation: string := "webhook/traffic-manager-endpoint-location"
  const AnnotationEndpointStatus: string := "webhook/traffic-manager-endpoint-status"
  const AnnotationDnsTtl: string := "webhook/traffic-manager-dns-ttl"
  const AnnotationMonitorProtocol: string := "webhook/traffic-manager-monitor-protocol"
  const AnnotationMonitorPort: string := "webhook/traffic-manager-monitor-port"
  const AnnotationMonitorPath: string := "webhook/traffic-manager-monitor-path"
  const AnnotationHealthChecksEnabled: string := "webhook/traffic-manager-health-checks-enabled"

  /** The fifteen keys, in declaration order. */
  const AnnotationKeys: seq<string> := [
    AnnotationEnabled, AnnotationProfileName, AnnotationResourceGroup, AnnotationHostname,
    AnnotationRoutingMethod, AnnotationWeight, AnnotationPriority,
    AnnotationEndpointName, AnnotationEndpointLocation, AnnotationEndpointStatus,
    AnnotationDnsTtl, AnnotationMonitorProtocol, AnnotationMonitorPort, AnnotationMonitorPath,
    AnnotationHealthChecksEnabled]

  // ------------------------------------------------------------ defaults

  const DefaultRoutingMethod: string := "Weighted"
  const DefaultWeight: int := 100
  const DefaultPriority: int := 1
  const DefaultDnsTtl: int := 30
  const DefaultMonitorProtocol: string := "HTTPS"
  const DefaultMonitorPort: int := 443
  const DefaultMonitorPath: string := "/"
  const DefaultEndpointStatus: string := "Enabled"
  const DefaultEndpointType: string := "ExternalEndpoints"
  const DefaultHealthChecksEnabled: bool := true

  /** The tag value that marks a profile as owned by this webhook. */
  const ManagedByValue: string := "external-dns-traffic-manager-webhook"

  // -------------------------------------------------------------- config

  datatype Config = Config(
    enabled: bool,
    profileName: string,
    resourceGroup: string,
    hostname: string,
    routingMethod: string,
    weight: int,
    priority: int,
    endpointName: string,
    endpointLocation: string,
    endpointStatus: string,
    endpointType: string,
    dnsTtl: int,
    monitorProtocol: string,
    monitorPort: int,
    monitorPath: string,
    healthChecksEnabled: bool)

  /** The integer-valued annotations, named in parse errors. */
  datatype IntField = WeightField | PriorityField | DnsTtlField | MonitorPortField

  datatype ParseError =
    | MissingResourceGroup
    | InvalidInt(field: IntField, text: string)
    | InvalidHealthChecks(text: string)

  /** The record ParseConfig starts from: the defaults, disabled, health checks off. */
  const DefaultConfig: Config := Config(
    enabled := false,
    profileName := "",
    resourceGroup := "",
    hostname := "",
    routingMethod := DefaultRoutingMethod,
    weight := DefaultWeight,
    priority := DefaultPriority,
    endpointName := "",
    endpointLocation := "",
    endpointStatus := DefaultEndpointStatus,
    endpointType := DefaultEndpointType,
    dnsTtl := DefaultDnsTtl,
    monitorProtocol := DefaultMonitorProtocol,
    monitorPort := DefaultMonitorPort,
    monitorPath := DefaultMonitorPath,
    healthChecksEnabled := false)

  // ------------------------------------------------------ text primitives

  function LowerAscii(c: char): char
  {
    if 'A' <= c <= 'Z' then ((c as int) + 32) as char else c
  }

  /** strings.ToLower, restricted to ASCII letters (enough to compare with "true"). */
  function ToLowerAscii(s: string): (r: string)
    ensures |r| == |s|
    ensures forall i :: 0 <= i < |s| ==> r[i] == LowerAscii(s[i])
  {
    seq(|s|, i requires 0 <= i < |s| => LowerAscii(s[i]))
  }

  /** strconv.ParseBool: the only literals it accepts. */
  function ParseBool(s: string): Option<bool>
  {
    if s in ["1", "t", "T", "TRUE", "true", "True"] then Some(true)
    else if s in ["0", "f", "F", "FALSE", "false", "False"] then Some(false)
    else None
  }

  /** The value of key, or "" when it is absent (Go's zero value for a missing map key). */
  function Lookup(labels: map<string, string>, key: string): string
  {
    if key in labels then labels[key] else ""
  }

  /** A key counts as given only when present with a non-empty value. */
  predicate Given(labels: map<string, string>, key: string)
  {
    key in labels && labels[key] != ""
  }

  function StringOr(labels: map<string, string>, key: string, default: string): string
  {
    if Given(labels, key) then labels[key] else default
  }

  function IntOr(labels: map<string, string>, key: string, field: IntField, default: int): Result<int, ParseError>
  {
    if !Given(labels, key) then Success(default)
    else match ParseInt64(labels[key])
      case Some(n) => Success(n)
      case None => Failure(InvalidInt(field, labels[key]))
  }

  function BoolOr(labels: map<string, string>, key: string, default: bool): Result<bool, ParseError>
  {
    if !Given(labels, key) then Success(default)
    else match ParseBool(labels[key])
      case Some(b) => Success(b)
      case None => Failure(InvalidHealthChecks(labels[key]))
  }

  /** The enabled annotation is present and, lower-cased, reads "true". */
  predicate EnabledIn(labels: map<string, string>)
  {
    AnnotationEnabled in labels && ToLowerAscii(labels[AnnotationEnabled]) == "true"
  }

  // --------------------------------------------------------------- parse

  /**
   * ParseConfig: defaults first; a disabled annotation set returns the
   * defaults at once; otherwise every given key overrides its default, the
   * resource group is required, and the numeric and boolean keys must parse
   * (weight, priority, DNS TTL, monitor port, health checks, in that order).
   */
  function ParseConfig(labels: map<string, string>): Result<Config, ParseError>
  {
    if !EnabledIn(labels) then Success(DefaultConfig)
    else
      var resourceGroup := Lookup(labels, AnnotationResourceGroup);
      if resourceGroup == "" then Failure(MissingResourceGroup)
      else
        var weight :- IntOr(labels, AnnotationWeight, WeightField, DefaultWeight);
        var priority :- IntOr(labels, AnnotationPriority, PriorityField, DefaultPriority);
        var dnsTtl :- IntOr(labels, AnnotationDnsTtl, DnsTtlField, DefaultDnsTtl);
        var monitorPort :- IntOr(labels, AnnotationMonitorPort, MonitorPortField, DefaultMonitorPort);
        var healthChecks :- BoolOr(labels, AnnotationHealthChecksEnabled, DefaultConfig.healthChecksEnabled);
        Success(DefaultConfig.(
          enabled := true,
          resourceGroup := resourceGroup,
          profileName := StringOr(labels, AnnotationProfileName, DefaultConfig.profileName),
          hostname := StringOr(labels, AnnotationHostname, DefaultConfig.hostname),
          routingMethod := StringOr(labels, AnnotationRoutingMethod, DefaultConfig.routingMethod),
          weight := weight,
          priority := priority,
          endpointName := StringOr(labels, AnnotationEndpointName, DefaultConfig.endpointName),
          endpointLocation := StringOr(labels, AnnotationEndpointLocation, DefaultConfig.endpointLocation),
          endpointStatus := StringOr(labels, AnnotationEndpointStatus, DefaultConfig.endpointStatus),
          dnsTtl := dnsTtl,
          monitorProtocol := StringOr(labels, AnnotationMonitorProtocol, DefaultConfig.monitorProtocol),
          monitorPort := monitorPort,
          monitorPath := StringOr(labels, AnnotationMonitorPath, DefaultConfig.monitorPath),
          healthChecksEnabled := healthChecks))
  }

  // --------------------------------------------------------- projections

  /** ToProfileConfig: the profile record for this configuration, tagged as ours. */
  function ToProfileConfig(c: Config): (p: TM.ProfileConfig)
    ensures p.location == "global"
    ensures p.profileName == c.profileName
    ensures p.resourceGroup == c.resourceGroup && p.routingMethod == c.routingMethod
    ensures p.dnsTtl == c.dnsTtl && p.healthChecksEnabled == c.healthChecksEnabled
    ensures p.monitorProtocol == c.monitorProtocol && p.monitorPort == c.monitorPort
    ensures p.monitorPath == c.monitorPath
    ensures p.tags == map["managedBy" := ManagedByValue]
  {
    var base := TM.DefaultProfileConfig();
    base.(
      profileName := if c.profileName != "" then c.profileName else base.profileName,
      resourceGroup := c.resourceGroup,
      routingMethod := c.routingMethod,
      dnsTtl := c.dnsTtl,
      monitorProtocol := c.monitorProtocol,
      monitorPort := c.monitorPort,
      monitorPath := c.monitorPath,
      healthChecksEnabled := c.healthChecksEnabled,
      tags := base.tags["managedBy" := ManagedByValue])
  }

  /** ToEndpointConfig: the endpoint record for one target of this configuration. */
  function ToEndpointConfig(c: Config, target: string): (e: TM.EndpointConfig)
    ensures e.target == target
    ensures e.endpointName == c.endpointName
    ensures e.endpointType == c.endpointType && e.weight == c.weight && e.priority == c.priority
    ensures e.status == c.endpointStatus && e.location == c.endpointLocation
  {
    var base := TM.DefaultEndpointConfig();
    base.(
      endpointName := if c.endpointName != "" then c.endpointName else base.endpointName,
      endpointType := c.endpointType,
      target := target,
      weight := c.weight,
      priority := c.priority,
      status := c.endpointStatus,
      location := c.endpointLocation)
  }

  // -------------------------------------------------------------- lemmas

  /** Every key is the prefix followed by a suffix, and no two keys coincide. */
  lemma AnnotationKeysDistinct()
    ensures |AnnotationKeys| == 15
    ensures forall i :: 0 <= i < |AnnotationKeys| ==>
      |AnnotationKeys[i]| > |AnnotationPrefix| && AnnotationKeys[i][..|AnnotationPrefix|] == AnnotationPrefix
    ensures forall i, j :: 0 <= i < j < |AnnotationKeys| ==> AnnotationKeys[i] != AnnotationKeys[j]
  {
    AnnotationKeysPrefixed();
    forall i, j | 0 <= i < j < |AnnotationKeys|
      ensures AnnotationKeys[i] != AnnotationKeys[j]
    {
      KeySignaturesDistinct(i, j);
    }
  }

  predicate Prefixed(k: string)
  {
    |k| > |AnnotationPrefix| && k[..|AnnotationPrefix|] == AnnotationPrefix
  }

  lemma AnnotationKeysPrefixed()
    ensures |AnnotationKeys| == 15
    ensures forall i :: 0 <= i < |AnnotationKeys| ==>
      |AnnotationKeys[i]| > |AnnotationPrefix| && AnnotationKeys[i][..|AnnotationPrefix|] == AnnotationPrefix
  {
    FirstKeysPrefixed();
    MiddleKeysPrefixed();
    LastKeysPrefixed();
    assert forall i :: 0 <= i < |AnnotationKeys| ==> Prefixed(AnnotationKeys[i]);
  }

  lemma FirstKeysPrefixed()
    ensures forall i :: 0 <= i < 5 ==> Prefixed(AnnotationKeys[i])
  {
  }

  lemma MiddleKeysPrefixed()
    ensures forall i :: 5 <= i < 10 ==> Prefixed(AnnotationKeys[i])
  {
  }

  lemma LastKeysPrefixed()
    ensures forall i :: 10 <= i < 15 ==> Prefixed(AnnotationKeys[i])
  {
  }

  /** The length of a key and three characters after the prefix, enough to tell the fifteen keys apart. */
  function KeySignature(k: string): (int, char, char, char)
  {
    (|k|, if |k| > 24 then k[24] else ' ', if |k| > 25 then k[25] else ' ', if |k| > 33 then k[33] else ' ')
  }

  const KeySignatures: seq<(int, char, char, char)> := [
    (31, 'e', 'n', ' '), (36, 'p', 'r', 'a'), (38, 'r', 'e', 'g'), (32, 'h', 'o', ' '),
    (38, 'r', 'o', 'e'), (30, 'w', 'e', ' '), (32, 'p', 'r', ' '),
    (37, 'e', 'n', 'n'), (41, 'e', 'n', 'l'), (39, 'e', 'n', 's'),
    (31, 'd', 'n', ' '), (40, 'm', 'o', 'r'), (36, 'm', 'o', 'o'), (36, 'm', 'o', 'a'),
    (45, 'h', 'e', 'e')]

  lemma KeySignaturesDistinct(i: nat, j: nat)
    requires i < j < |AnnotationKeys|
    ensures KeySignature(AnnotationKeys[i]) != KeySignature(AnnotationKeys[j])
  {
    FirstKeySignatures();
    LastKeySignatures();
    assert KeySignatures[i] != KeySignatures[j];
  }

  lemma FirstKeySignatures()
    ensures forall i :: 0 <= i < 7 ==> KeySignature(AnnotationKeys[i]) == KeySignatures[i]
  {
  }

  lemma LastKeySignatures()
    ensures forall i :: 7 <= i < 15 ==> KeySignature(AnnotationKeys[i]) == KeySignatures[i]
  {
  }

  /** The annotation defaults agree with the control plane's record defaults. */
  lemma DefaultsCoincide()
    ensures TM.DefaultProfileConfig().routingMethod == DefaultRoutingMethod
    ensures TM.DefaultProfileConfig().dnsTtl == DefaultDnsTtl
    ensures TM.DefaultProfileConfig().monitorProtocol == DefaultMonitorProtocol
    ensures TM.DefaultProfileConfig().monitorPort == DefaultMonitorPort
    ensures TM.DefaultProfileConfig().monitorPath == DefaultMonitorPath
    ensures TM.DefaultProfileConfig().healthChecksEnabled == DefaultHealthChecksEnabled
    ensures TM.DefaultEndpointConfig().weight == DefaultWeight
    ensures TM.DefaultEndpointConfig().priority == DefaultPriority
    ensures TM.DefaultEndpointConfig().status == DefaultEndpointStatus
    ensures TM.DefaultEndpointConfig().endpointType == DefaultEndpointType
    // ParseConfig's defaulted record does not read DefaultHealthChecksEnabled.
    ensures DefaultHealthChecksEnabled && !DefaultConfig.healthChecksEnabled
  {
  }

  /** Without an enabled annotation reading "true", parsing never fails and yields the defaults. */
  lemma ParseDisabled(labels: map<string, string>)
    requires !EnabledIn(labels)
    ensures ParseConfig(labels) == Success(DefaultConfig)
    ensures !ParseConfig(labels).value.enabled
  {
  }

  /** A successful parse is enabled exactly when the enabled annotation says so. */
  lemma ParseEnabledIff(labels: map<string, string>)
    requires ParseConfig(labels).Success?
    ensures ParseConfig(labels).value.enabled <==> EnabledIn(labels)
  {
  }

  /** When enabled, a missing or empty resource group is the error, whatever else is given. */
  lemma ParseRequiresResourceGroup(labels: map<string, string>)
    requires EnabledIn(labels)
    requires Lookup(labels, AnnotationResourceGroup) == ""
    ensures ParseConfig(labels) == Failure(MissingResourceGroup)
  {
  }

  /**
   * The numeric and boolean checks: an enabled parse with a resource group
   * fails exactly on the first given key, in the order weight, priority,
   * DNS TTL, monitor port, health checks, whose text does not parse.
   */
  lemma ParseFirstBadField(labels: map<string, string>)
    requires EnabledIn(labels) && Lookup(labels, AnnotationResourceGroup) != ""
    ensures ParseConfig(labels).Failure? <==>
      IntOr(labels, AnnotationWeight, WeightField, DefaultWeight).Failure? ||
      IntOr(labels, AnnotationPriority, PriorityField, DefaultPriority).Failure? ||
      IntOr(labels, AnnotationDnsTtl, DnsTtlField, DefaultDnsTtl).Failure? ||
      IntOr(labels, AnnotationMonitorPort, MonitorPortField, DefaultMonitorPort).Failure? ||
      BoolOr(labels, AnnotationHealthChecksEnabled, false).Failure?
    ensures Given(labels, AnnotationWeight) && ParseInt64(labels[AnnotationWeight]).None? ==>
      ParseConfig(labels) == Failure(InvalidInt(WeightField, labels[AnnotationWeight]))
    ensures (IntOr(labels, AnnotationWeight, WeightField, DefaultWeight).Success? &&
             Given(labels, AnnotationPriority) && ParseInt64(labels[AnnotationPriority]).None?) ==>
      ParseConfig(labels) == Failure(InvalidInt(PriorityField, labels[AnnotationPriority]))
    ensures (IntOr(labels, AnnotationWeight, WeightField, DefaultWeight).Success? &&
             IntOr(labels, AnnotationPriority, PriorityField, DefaultPriority).Success? &&
             Given(labels, AnnotationDnsTtl) && ParseInt64(labels[AnnotationDnsTtl]).None?) ==>
      ParseConfig(labels) == Failure(InvalidInt(DnsTtlField, labels[AnnotationDnsTtl]))
    ensures (IntOr(labels, AnnotationWeight, WeightField, DefaultWeight).Success? &&
             IntOr(labels, AnnotationPriority, PriorityField, DefaultPriority).Success? &&
             IntOr(labels, AnnotationDnsTtl, DnsTtlField, DefaultDnsTtl).Success? &&
             Given(labels, AnnotationMonitorPort) && ParseInt64(labels[AnnotationMonitorPort]).None?) ==>
      ParseConfig(labels) == Failure(InvalidInt(MonitorPortField, labels[AnnotationMonitorPort]))
    ensures (IntOr(labels, AnnotationWeight, WeightField, DefaultWeight).Success? &&
             IntOr(labels, AnnotationPriority, PriorityField, DefaultPriority).Success? &&
             IntOr(labels, AnnotationDnsTtl, DnsTtlField, DefaultDnsTtl).Success? &&
             IntOr(labels, AnnotationMonitorPort, MonitorPortField, DefaultMonitorPort).Success? &&
             Given(labels, AnnotationHealthChecksEnabled) && ParseBool(labels[AnnotationHealthChecksEnabled]).None?) ==>
      ParseConfig(labels) == Failure(InvalidHealthChecks(labels[AnnotationHealthChecksEnabled]))
  {
  }

  /**
   * What a successful enabled parse holds: every string key given is copied
   * verbatim, every given numeric or boolean key holds its parsed value, every
   * absent or empty key keeps its default, and the endpoint type is never read
   * from the annotations.
   */
  lemma ParseCopiesOrDefaults(labels: map<string, string>)
    requires ParseConfig(labels).Success? && EnabledIn(labels)
    ensures var c := ParseConfig(labels).value;
      && c.resourceGroup == labels[AnnotationResourceGroup] != ""
      && c.profileName == StringOr(labels, AnnotationProfileName, "")
      && c.hostname == StringOr(labels, AnnotationHostname, "")
      && c.routingMethod == StringOr(labels, AnnotationRoutingMethod, DefaultRoutingMethod)
      && c.endpointName == StringOr(labels, AnnotationEndpointName, "")
      && c.endpointLocation == StringOr(labels, AnnotationEndpointLocation, "")
      && c.endpointStatus == StringOr(labels, AnnotationEndpointStatus, DefaultEndpointStatus)
      && c.monitorProtocol == StringOr(labels, AnnotationMonitorProtocol, DefaultMonitorProtocol)
      && c.monitorPath == StringOr(labels, AnnotationMonitorPath, DefaultMonitorPath)
      && c.endpointType == DefaultEndpointType
      && (Given(labels, AnnotationWeight) ==> Some(c.weight) == ParseInt64(labels[AnnotationWeight]))
      && (!Given(labels, AnnotationWeight) ==> c.weight == DefaultWeight)
      && (Given(labels, AnnotationPriority) ==> Some(c.priority) == ParseInt64(labels[AnnotationPriority]))
      && (!Given(labels, AnnotationPriority) ==> c.priority == DefaultPriority)
      && (Given(labels, AnnotationDnsTtl) ==> Some(c.dnsTtl) == ParseInt64(labels[AnnotationDnsTtl]))
      && (!Given(labels, AnnotationDnsTtl) ==> c.dnsTtl == DefaultDnsTtl)
      && (Given(labels, AnnotationMonitorPort) ==> Some(c.monitorPort) == ParseInt64(labels[AnnotationMonitorPort]))
      && (!Given(labels, AnnotationMonitorPort) ==> c.monitorPort == DefaultMonitorPort)
      && (Given(labels, AnnotationHealthChecksEnabled) ==>
            Some(c.healthChecksEnabled) == ParseBool(labels[AnnotationHealthChecksEnabled]))
      && (!Given(labels, AnnotationHealthChecksEnabled) ==> !c.healthChecksEnabled)
  {
  }

  /** The configurations that a set of annotations can describe exactly. */
  predicate Describable(c: Config)
  {
    && c.enabled && c.resourceGroup != ""
    && c.routingMethod != "" && c.endpointStatus != "" && c.monitorProtocol != "" && c.monitorPath != ""
    && c.endpointType == DefaultEndpointType
    && MinInt64 <= c.weight <= MaxInt64 && MinInt64 <= c.priority <= MaxInt64
    && MinInt64 <= c.dnsTtl <= MaxInt64 && MinInt64 <= c.monitorPort <= MaxInt64
  }

  function BoolText(b: bool): string { if b then "true" else "false" }

  /** An annotation set describing c, every key written; an empty value stands for an absent field, as in the parser. */
  function AnnotationsFor(c: Config): map<string, string>
  {
    map[
      AnnotationProfileName := c.profileName,
      AnnotationHostname := c.hostname,
      AnnotationEndpointName := c.endpointName,
      AnnotationEndpointLocation := c.endpointLocation,
      AnnotationEnabled := "true",
      AnnotationResourceGroup := c.resourceGroup,
      AnnotationWeight := IntToDecimal(c.weight),
      AnnotationPriority := IntToDecimal(c.priority),
      AnnotationDnsTtl := IntToDecimal(c.dnsTtl),
      AnnotationMonitorPort := IntToDecimal(c.monitorPort),
      AnnotationHealthChecksEnabled := BoolText(c.healthChecksEnabled),
      AnnotationRoutingMethod := c.routingMethod,
      AnnotationEndpointStatus := c.endpointStatus,
      AnnotationMonitorProtocol := c.monitorProtocol,
      AnnotationMonitorPath := c.monitorPath]
  }

  lemma AnnotationsForFixedKeys(c: Config)
    ensures AnnotationsFor(c)[AnnotationEnabled] == "true"
    ensures AnnotationsFor(c)[AnnotationResourceGroup] == c.resourceGroup
    ensures AnnotationsFor(c)[AnnotationHealthChecksEnabled] == BoolText(c.healthChecksEnabled)
    ensures AnnotationsFor(c)[AnnotationRoutingMethod] == c.routingMethod
    ensures AnnotationsFor(c)[AnnotationEndpointStatus] == c.endpointStatus
    ensures AnnotationsFor(c)[AnnotationMonitorProtocol] == c.monitorProtocol
    ensures AnnotationsFor(c)[AnnotationMonitorPath] == c.monitorPath
  {
  }

  lemma AnnotationsForIntKeys(c: Config)
    ensures AnnotationsFor(c)[AnnotationWeight] == IntToDecimal(c.weight)
    ensures AnnotationsFor(c)[AnnotationPriority] == IntToDecimal(c.priority)
    ensures AnnotationsFor(c)[AnnotationDnsTtl] == IntToDecimal(c.dnsTtl)
    ensures AnnotationsFor(c)[AnnotationMonitorPort] == IntToDecimal(c.monitorPort)
  {
  }

  lemma AnnotationsForOptionalKeys(c: Config)
    ensures StringOr(AnnotationsFor(c), AnnotationProfileName, "") == c.profileName
    ensures StringOr(AnnotationsFor(c), AnnotationHostname, "") == c.hostname
    ensures StringOr(AnnotationsFor(c), AnnotationEndpointName, "") == c.endpointName
    ensures StringOr(AnnotationsFor(c), AnnotationEndpointLocation, "") == c.endpointLocation
  {
  }

  /** ParseConfig returns c on any annotation set that spells out every field of c. */
  lemma ParseSpelledOut(labels: map<string, string>, c: Config)
    requires c.enabled && c.endpointType == DefaultEndpointType
    requires EnabledIn(labels) && Lookup(labels, AnnotationResourceGroup) == c.resourceGroup != ""
    requires IntOr(labels, AnnotationWeight, WeightField, DefaultWeight) == Success(c.weight)
    requires IntOr(labels, AnnotationPriority, PriorityField, DefaultPriority) == Success(c.priority)
    requires IntOr(labels, AnnotationDnsTtl, DnsTtlField, DefaultDnsTtl) == Success(c.dnsTtl)
    requires IntOr(labels, AnnotationMonitorPort, MonitorPortField, DefaultMonitorPort) == Success(c.monitorPort)
    requires BoolOr(labels, AnnotationHealthChecksEnabled, false) == Success(c.healthChecksEnabled)
    requires StringOr(labels, AnnotationProfileName, "") == c.profileName
    requires StringOr(labels, AnnotationHostname, "") == c.hostname
    requires StringOr(labels, AnnotationEndpointName, "") == c.endpointName
    requires StringOr(labels, AnnotationEndpointLocation, "") == c.endpointLocation
    requires StringOr(labels, AnnotationRoutingMethod, DefaultRoutingMethod) == c.routingMethod
    requires StringOr(labels, AnnotationEndpointStatus, DefaultEndpointStatus) == c.endpointStatus
    requires StringOr(labels, AnnotationMonitorProtocol, DefaultMonitorProtocol) == c.monitorProtocol
    requires StringOr(labels, AnnotationMonitorPath, DefaultMonitorPath) == c.monitorPath
    ensures ParseConfig(labels) == Success(c)
  {
  }

  /** The decimal text of an int64 is given and parses back to it. */
  lemma IntOrFormatted(labels: map<string, string>, key: string, field: IntField, default: int, n: int)
    requires MinInt64 <= n <= MaxInt64
    requires key in labels && labels[key] == IntToDecimal(n)
    ensures IntOr(labels, key, field, default) == Success(n)
  {
    ParseFormattedInt(n);
    if n < 0 {
      assert labels[key][0] == '-';
    } else {
      assert |NatToDecimal(n)| > 0;
    }
  }

  lemma AnnotationsForParseInts(c: Config)
    requires Describable(c)
    ensures IntOr(AnnotationsFor(c), AnnotationWeight, WeightField, DefaultWeight) == Success(c.weight)
    ensures IntOr(AnnotationsFor(c), AnnotationPriority, PriorityField, DefaultPriority) == Success(c.priority)
    ensures IntOr(AnnotationsFor(c), AnnotationDnsTtl, DnsTtlField, DefaultDnsTtl) == Success(c.dnsTtl)
    ensures IntOr(AnnotationsFor(c), AnnotationMonitorPort, MonitorPortField, DefaultMonitorPort) == Success(c.monitorPort)
  {
    var m := AnnotationsFor(c);
    AnnotationsForIntKeys(c);
    IntOrFormatted(m, AnnotationWeight, WeightField, DefaultWeight, c.weight);
    IntOrFormatted(m, AnnotationPriority, PriorityField, DefaultPriority, c.priority);
    IntOrFormatted(m, AnnotationDnsTtl, DnsTtlField, DefaultDnsTtl, c.dnsTtl);
    IntOrFormatted(m, AnnotationMonitorPort, MonitorPortField, DefaultMonitorPort, c.monitorPort);
  }

  lemma AnnotationsForParseStrings(c: Config)
    requires Describable(c)
    ensures EnabledIn(AnnotationsFor(c))
    ensures Lookup(AnnotationsFor(c), AnnotationResourceGroup) == c.resourceGroup
    ensures BoolOr(AnnotationsFor(c), AnnotationHealthChecksEnabled, false) == Success(c.healthChecksEnabled)
    ensures StringOr(AnnotationsFor(c), AnnotationRoutingMethod, DefaultRoutingMethod) == c.routingMethod
    ensures StringOr(AnnotationsFor(c), AnnotationEndpointStatus, DefaultEndpointStatus) == c.endpointStatus
    ensures StringOr(AnnotationsFor(c), AnnotationMonitorProtocol, DefaultMonitorProtocol) == c.monitorProtocol
    ensures StringOr(AnnotationsFor(c), AnnotationMonitorPath, DefaultMonitorPath) == c.monitorPath
  {
    AnnotationsForFixedKeys(c);
    assert ToLowerAscii("true") == "true";
  }

  /** Parsing the annotations written for a describable configuration gives it back. */
  lemma ParseAnnotationsFor(c: Config)
    requires Describable(c)
    ensures ParseConfig(AnnotationsFor(c)) == Success(c)
  {
    AnnotationsForParseInts(c);
    AnnotationsForParseStrings(c);
    AnnotationsForOptionalKeys(c);
    ParseSpelledOut(AnnotationsFor(c), c);
  }

  /** The case-insensitive enabled check, on the values the parser tests use. */
  lemma EnabledSpellings()
    ensures EnabledIn(map[AnnotationEnabled := "TRUE"])
    ensures EnabledIn(map[AnnotationEnabled := "True"])
    ensures !EnabledIn(map[AnnotationEnabled := "yes"])
    ensures !EnabledIn(map[AnnotationEnabled := "false"])
    ensures !EnabledIn(map[AnnotationEnabled := ""])
  {
    assert ToLowerAscii("TRUE") == "true";
    assert ToLowerAscii("True") == "true";
    assert ToLowerAscii("yes")[0] == 'y';
    assert ToLowerAscii("false")[0] == 'f';
  }
}

/**
 * The configuration checks applied before any control-plane call
 * (pkg/annotations/validator.go): a disabled configuration is always
 * accepted; an enabled one is rejected with the first failing check.
 */
module Validator {
  import opened Wrappers
  import opened Annotations

  const ValidRoutingMethods: seq<string> := ["Weighted", "Priority", "Performance", "Geographic"]
  const ValidProtocols: seq<string> := ["HTTP", "HTTPS", "TCP"]
  const ValidStatuses: seq<string> := ["Enabled", "Disabled"]

  const MinWeight: int := 1
  const MaxWeight: int := 1000
  const MinPriority: int := 1
  const MaxPriority: int := 1000
  const MinDnsTtl: int := 30
  const MinMonitorPort: int := 1
  const MaxMonitorPort: int := 65535

  /** One constructor per rejection, carrying the value the message reports. */
  datatype ValidationError =
    | ResourceGroupRequired
    | WeightOutOfRange(weight: int)
    | PriorityOutOfRange(priority: int)
    | InvalidRoutingMethod(routingMethod: string)
    | InvalidMonitorProtocol(protocol: string)
    | InvalidEndpointStatus(status: string)
    | DnsTtlTooLow(dnsTtl: int)
    | MonitorPortOutOfRange(port: int)
    | EndpointLocationRequired

  /** The checks, one per rule, independent of their order. */
  datatype Check =
    | ResourceGroupCheck | WeightCheck | PriorityCheck | RoutingCheck | ProtocolCheck
    | StatusCheck | DnsTtlCheck | PortCheck | LocationCheck

  /** The order in which the checks run. */
  const CheckOrder: seq<Check> := [
    ResourceGroupCheck, WeightCheck, PriorityCheck, RoutingCheck, ProtocolCheck,
    StatusCheck, DnsTtlCheck, PortCheck, LocationCheck]

  /** c breaks rule k. */
  predicate Fails(c: Config, k: Check)
  {
    match k
    case ResourceGroupCheck => c.resourceGroup == ""
    case WeightCheck => !(MinWeight <= c.weight <= MaxWeight)
    case PriorityCheck => !(MinPriority <= c.priority <= MaxPriority)
    case RoutingCheck => c.routingMethod !in ValidRoutingMethods
    case ProtocolCheck => c.monitorProtocol !in ValidProtocols
    case StatusCheck => c.endpointStatus !in ValidStatuses
    case DnsTtlCheck => c.dnsTtl < MinDnsTtl
    case PortCheck => !(MinMonitorPort <= c.monitorPort <= MaxMonitorPort)
    case LocationCheck => c.endpointType == DefaultEndpointType && c.endpointLocation == ""
  }

  /** The error a failing rule reports for c. */
  function ErrorFor(c: Config, k: Check): ValidationError
  {
    match k
    case ResourceGroupCheck => ResourceGroupRequired
    case WeightCheck => WeightOutOfRange(c.weight)
    case PriorityCheck => PriorityOutOfRange(c.priority)
    case RoutingCheck => InvalidRoutingMethod(c.routingMethod)
    case ProtocolCheck => InvalidMonitorProtocol(c.monitorProtocol)
    case StatusCheck => InvalidEndpointStatus(c.endpointStatus)
    case DnsTtlCheck => DnsTtlTooLow(c.dnsTtl)
    case PortCheck => MonitorPortOutOfRange(c.monitorPort)
    case LocationCheck => EndpointLocationRequired
  }

  /** The error of the first rule in checks that c breaks, if any. */
  function FirstFailure(c: Config, checks: seq<Check>): Option<ValidationError>
  {
    if |checks| == 0 then None
    else if Fails(c, checks[0]) then Some(ErrorFor(c, checks[0]))
    else FirstFailure(c, checks[1..])
  }

  /** FirstFailure is None exactly when no rule fails, and otherwise names the earliest failing rule. */
  lemma {:induction false} FirstFailureMeaning(c: Config, checks: seq<Check>)
    ensures FirstFailure(c, checks).None? <==> forall i :: 0 <= i < |checks| ==> !Fails(c, checks[i])
    ensures FirstFailure(c, checks).Some? ==>
      exists i :: && 0 <= i < |checks| && Fails(c, checks[i])
                  && FirstFailure(c, checks).value == ErrorFor(c, checks[i])
                  && forall j :: 0 <= j < i ==> !Fails(c, checks[j])
  {
    if |checks| == 0 {
    } else if Fails(c, checks[0]) {
      assert Fails(c, checks[0]) && FirstFailure(c, checks).value == ErrorFor(c, checks[0]);
    } else {
      var rest := checks[1..];
      FirstFailureMeaning(c, rest);
      assert forall i :: 0 < i < |checks| ==> checks[i] == rest[i - 1];
      if FirstFailure(c, rest).Some? {
        var i :| && 0 <= i < |rest| && Fails(c, rest[i])
                 && FirstFailure(c, rest).value == ErrorFor(c, rest[i])
                 && forall j :: 0 <= j < i ==> !Fails(c, rest[j]);
        assert checks[i + 1] == rest[i];
        forall j | 0 <= j < i + 1 ensures !Fails(c, checks[j]) {
          if j > 0 { assert checks[j] == rest[j - 1]; }
        }
      } else {
        forall i | 0 <= i < |checks| ensures !Fails(c, checks[i]) {
          if i > 0 { assert checks[i] == rest[i - 1]; }
        }
      }
    }
  }

  /** What ValidateConfig is specified to return. */
  function Validation(c: Config): Option<ValidationError>
  {
    if !c.enabled then None else FirstFailure(c, CheckOrder)
  }

  /** contains: a linear scan of the slice. */
  method Contains(slice: seq<string>, item: string) returns (found: bool)
    ensures found <==> item in slice
  {
    var i := 0;
    while i < |slice|
      invariant 0 <= i <= |slice|
      invariant item !in slice[..i]
    {
      if slice[i] == item {
        return true;
      }
      i := i + 1;
    }
    assert slice[..i] == slice;
    return false;
  }

  /** ValidateConfig: the checks as the source writes them, one after the other. */
  method ValidateConfig(c: Config) returns (r: Option<ValidationError>)
    ensures r == Validation(c)
  {
    if !c.enabled {
      return None;
    }
    // Before rule i, Validation(c) == FirstFailure(c, CheckOrder[i..]): the earlier rules passed.
    assert CheckOrder[0..] == CheckOrder;
    r := ValidateRanges(c);
    if r.Some? {
      return;
    }
    r := ValidateNames(c);
    if r.Some? {
      return;
    }
    r := ValidateLimits(c);
  }

  /** The first three checks of ValidateConfig (resource group, weight, priority). */
  method ValidateRanges(c: Config) returns (r: Option<ValidationError>)
    ensures FirstFailure(c, CheckOrder[0..]) == if r.Some? then r else FirstFailure(c, CheckOrder[3..])
  {
    NextCheck(c, 0, ResourceGroupCheck);
    if c.resourceGroup == "" {
      return Some(ResourceGroupRequired);
    }
    NextCheck(c, 1, WeightCheck);
    if c.weight < MinWeight || c.weight > MaxWeight {
      return Some(WeightOutOfRange(c.weight));
    }
    NextCheck(c, 2, PriorityCheck);
    if c.priority < MinPriority || c.priority > MaxPriority {
      return Some(PriorityOutOfRange(c.priority));
    }
    return None;
  }

  /** The three membership checks of ValidateConfig (routing method, monitor protocol, endpoint status). */
  method ValidateNames(c: Config) returns (r: Option<ValidationError>)
    ensures FirstFailure(c, CheckOrder[3..]) == if r.Some? then r else FirstFailure(c, CheckOrder[6..])
  {
    NextCheck(c, 3, RoutingCheck);
    var ok := Contains(ValidRoutingMethods, c.routingMethod);
    if !ok {
      return Some(InvalidRoutingMethod(c.routingMethod));
    }
    NextCheck(c, 4, ProtocolCheck);
    ok := Contains(ValidProtocols, c.monitorProtocol);
    if !ok {
      return Some(InvalidMonitorProtocol(c.monitorProtocol));
    }
    NextCheck(c, 5, StatusCheck);
    ok := Contains(ValidStatuses, c.endpointStatus);
    if !ok {
      return Some(InvalidEndpointStatus(c.endpointStatus));
    }
    return None;
  }

  /** The last three checks of ValidateConfig (DNS TTL, monitor port, endpoint location). */
  method ValidateLimits(c: Config) returns (r: Option<ValidationError>)
    ensures FirstFailure(c, CheckOrder[6..]) == r
  {
    NextCheck(c, 6, DnsTtlCheck);
    if c.dnsTtl < MinDnsTtl {
      return Some(DnsTtlTooLow(c.dnsTtl));
    }
    NextCheck(c, 7, PortCheck);
    if c.monitorPort < MinMonitorPort || c.monitorPort > MaxMonitorPort {
      return Some(MonitorPortOutOfRange(c.monitorPort));
    }
    NextCheck(c, 8, LocationCheck);
    if c.endpointType == DefaultEndpointType && c.endpointLocation == "" {
      return Some(EndpointLocationRequired);
    }
    assert CheckOrder[9..] == [];
    return None;
  }

  /** One step of FirstFailure along CheckOrder: rule i decides, or the rules after it do. */
  lemma NextCheck(c: Config, i: nat, k: Check)
    requires i < |CheckOrder| && CheckOrder[i] == k
    ensures FirstFailure(c, CheckOrder[i..]) ==
      if Fails(c, k) then Some(ErrorFor(c, k)) else FirstFailure(c, CheckOrder[i + 1..])
  {
    assert CheckOrder[i..][1..] == CheckOrder[i + 1..];
  }

  // -------------------------------------------------------------- lemmas

  /** A configuration is accepted exactly when it is disabled or breaks no rule. */
  lemma AcceptedIff(c: Config)
    ensures Validation(c).None? <==> !c.enabled || forall k :: k in CheckOrder ==> !Fails(c, k)
  {
    FirstFailureMeaning(c, CheckOrder);
    if c.enabled && Validation(c).None? {
      forall k | k in CheckOrder ensures !Fails(c, k) {
        var i :| 0 <= i < |CheckOrder| && CheckOrder[i] == k;
      }
    }
  }

  /** A rejection names a rule that c breaks and that every earlier rule passes. */
  lemma RejectedNamesFirstFailure(c: Config, e: ValidationError)
    requires Validation(c) == Some(e)
    ensures c.enabled
    ensures exists i :: && 0 <= i < |CheckOrder| && Fails(c, CheckOrder[i]) && e == ErrorFor(c, CheckOrder[i])
                        && forall j :: 0 <= j < i ==> !Fails(c, CheckOrder[j])
  {
    FirstFailureMeaning(c, CheckOrder);
  }

  /** The rules cover every field the source checks: each rule appears once. */
  lemma CheckOrderIsComplete()
    ensures forall k: Check :: k in CheckOrder
    ensures forall i, j :: 0 <= i < j < |CheckOrder| ==> CheckOrder[i] != CheckOrder[j]
  {
    forall k: Check ensures k in CheckOrder {
      match k
      case ResourceGroupCheck => assert CheckOrder[0] == k;
      case WeightCheck => assert CheckOrder[1] == k;
      case PriorityCheck => assert CheckOrder[2] == k;
      case RoutingCheck => assert CheckOrder[3] == k;
      case ProtocolCheck => assert CheckOrder[4] == k;
      case StatusCheck => assert CheckOrder[5] == k;
      case DnsTtlCheck => assert CheckOrder[6] == k;
      case PortCheck => assert CheckOrder[7] == k;
      case LocationCheck => assert CheckOrder[8] == k;
    }
  }

  /** The bounds are inclusive at both ends. */
  lemma RangeBoundaries(c: Config)
    requires c.enabled && c.resourceGroup != ""
    ensures (c.weight == 0 || c.weight == 1001) ==> Validation(c) == Some(WeightOutOfRange(c.weight))
    ensures (c.weight == 1 || c.weight == 1000) ==> !Fails(c, WeightCheck)
    ensures (c.monitorPort == 1 || c.monitorPort == 65535) ==> !Fails(c, PortCheck)
    ensures c.dnsTtl == 30 ==> !Fails(c, DnsTtlCheck)
  {
    assert CheckOrder[1..][0] == WeightCheck;
    assert FirstFailure(c, CheckOrder) == FirstFailure(c, CheckOrder[1..]);
  }

  /** An enabled configuration parsed from annotations that only add a resource group and a location is accepted. */
  lemma DefaultsAccepted(c: Config)
    requires c == DefaultConfig.(enabled := true, resourceGroup := "rg", endpointLocation := "eastus")
    ensures Validation(c) == None
  {
    AcceptedIff(c);
  }

  /** Without a location, an external endpoint is rejected last of all. */
  lemma MissingLocationRejected(c: Config)
    requires c == DefaultConfig.(enabled := true, resourceGroup := "rg")
    ensures Validation(c) == Some(EndpointLocationRequired)
  {
    DefaultsPassRules(c);
    OnlyLastRuleFails(c);
  }

  /** A configuration that breaks only the last rule is rejected with that rule's error. */
  lemma OnlyLastRuleFails(c: Config)
    requires c.enabled && forall j :: 0 <= j < 8 ==> !Fails(c, CheckOrder[j])
    ensures Validation(c) == if Fails(c, LocationCheck) then Some(ErrorFor(c, LocationCheck)) else None
  {
    PassingPrefix(c, CheckOrder, 8);
    assert CheckOrder[8..] == [LocationCheck];
  }

  /** The defaults with a resource group pass every rule before the location rule. */
  lemma DefaultsPassRules(c: Config)
    requires c == DefaultConfig.(enabled := true, resourceGroup := "rg")
    ensures forall j :: 0 <= j < 8 ==> !Fails(c, CheckOrder[j])
    ensures c.enabled && Fails(c, LocationCheck)
  {
    DefaultSettings(c);
    assert c.routingMethod == ValidRoutingMethods[0];
    assert c.monitorProtocol == ValidProtocols[1];
    assert c.endpointStatus == ValidStatuses[0];
  }

  lemma DefaultSettings(c: Config)
    requires c == DefaultConfig.(enabled := true, resourceGroup := "rg")
    ensures c.routingMethod == "Weighted" && c.monitorProtocol == "HTTPS" && c.endpointStatus == "Enabled"
    ensures c.weight == 100 && c.priority == 1 && c.dnsTtl == 30 && c.monitorPort == 443 && c.resourceGroup == "rg"
  {
  }

  /** Rules that pass can be skipped: the verdict is that of the remaining rules. */
  lemma {:induction false} PassingPrefix(c: Config, checks: seq<Check>, n: nat)
    requires n <= |checks| && forall j :: 0 <= j < n ==> !Fails(c, checks[j])
    ensures FirstFailure(c, checks) == FirstFailure(c, checks[n..])
    decreases n
  {
    if n > 0 {
      PassingPrefix(c, checks[1..], n - 1);
      assert checks[1..][n - 1..] == checks[n..];
    }
  }
}

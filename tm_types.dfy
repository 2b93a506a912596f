/**
 * The records exchanged with the Traffic Manager control plane
 * (pkg/trafficmanager/types.go): what is sent to create a profile or an
 * endpoint, what comes back for an endpoint, and their default values.
 */
module TrafficManager {

  const ExternalEndpoints: string := "ExternalEndpoints"

  /** The settings of one profile; Location is always "global". */
  datatype ProfileConfig = ProfileConfig(
    profileName: string,
    resourceGroup: string,
    location: string,
    routingMethod: string,
    dnsTtl: int,
    monitorProtocol: string,
    monitorPort: int,
    monitorPath: string,
    healthChecksEnabled: bool,
    tags: map<string, string>)

  /** The settings of one endpoint inside a profile. */
  datatype EndpointConfig = EndpointConfig(
    endpointName: string,
    endpointType: string,
    target: string,
    weight: int,
    priority: int,
    status: string,
    location: string)

  /** An endpoint as the control plane reports it; times are clock readings, 0 is the zero time. */
  datatype EndpointState = EndpointState(
    endpointName: string,
    endpointType: string,
    target: string,
    weight: int,
    priority: int,
    status: string,
    location: string,
    createdAt: nat,
    updatedAt: nat)

  function DefaultProfileConfig(): (c: ProfileConfig)
    ensures c.profileName == "" && c.resourceGroup == "" && c.tags == map[]
    ensures c.location == "global" && c.routingMethod == "Weighted" && c.dnsTtl == 30
    ensures c.monitorProtocol == "HTTPS" && c.monitorPort == 443 && c.monitorPath == "/"
    ensures c.healthChecksEnabled
  {
    ProfileConfig(
      profileName := "",
      resourceGroup := "",
      location := "global",
      routingMethod := "Weighted",
      dnsTtl := 30,
      monitorProtocol := "HTTPS",
      monitorPort := 443,
      monitorPath := "/",
      healthChecksEnabled := true,
      tags := map[])
  }

  function DefaultEndpointConfig(): (c: EndpointConfig)
    ensures c.endpointName == "" && c.target == "" && c.location == ""
    ensures c.endpointType == ExternalEndpoints && c.weight == 100 && c.priority == 1
    ensures c.status == "Enabled"
  {
    EndpointConfig(
      endpointName := "",
      endpointType := ExternalEndpoints,
      target := "",
      weight := 100,
      priority := 1,
      status := "Enabled",
      location := "")
  }
}

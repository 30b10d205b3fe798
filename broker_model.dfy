/** The Open Service Broker model objects the broker produces and consumes,
    reduced to the fields this broker reads or sets. */
module BrokerModel {
  import opened Java

  type Metadata = map<string, string>

  datatype DashboardClient = DashboardClient(id: string, secret: string, redirectUri: string)

  /** One plan of a service offering in the catalog. */
  datatype Plan = Plan(id: string, name: string, description: string, metadata: Nullable<Metadata>, free: bool)

  /** One service offering in the catalog. `requiredPermissions` is the
      protocol's `requires` list. */
  datatype ServiceDefinition = ServiceDefinition(
    id: string,
    name: JString,
    description: JString,
    bindable: bool,
    planUpdateable: bool,
    plans: seq<Plan>,
    tags: seq<string>,
    metadata: Nullable<Metadata>,
    requiredPermissions: Nullable<seq<string>>,
    dashboardClient: Nullable<DashboardClient>)

  /** The catalog advertised to the marketplace. */
  datatype Catalog = Catalog(serviceDefinitions: seq<ServiceDefinition>)

  datatype CreateServiceInstanceRequest = CreateServiceInstanceRequest(
    organizationGuid: JString, spaceGuid: JString, planId: JString, serviceDefinitionId: JString)

  /** A default-constructed response: synchronous, no dashboard. */
  datatype CreateServiceInstanceResponse = CreateServiceInstanceResponse(async: bool, dashboardUrl: JString)

  datatype GetLastServiceOperationRequest = GetLastServiceOperationRequest(serviceInstanceId: JString)

  datatype OperationState = InProgress | Succeeded | Failed

  datatype GetLastServiceOperationResponse = GetLastServiceOperationResponse(state: OperationState, description: JString)

  datatype DeleteServiceInstanceRequest = DeleteServiceInstanceRequest(
    serviceInstanceId: JString, serviceDefinitionId: JString, planId: JString)

  datatype DeleteServiceInstanceResponse = DeleteServiceInstanceResponse(async: bool)

  datatype UpdateServiceInstanceRequest = UpdateServiceInstanceRequest(
    serviceInstanceId: JString, serviceDefinitionId: JString, planId: JString)

  datatype UpdateServiceInstanceResponse = UpdateServiceInstanceResponse(async: bool)

  /** The binding request; the framework resolves its service definition
      from the catalog before the handler runs. */
  datatype CreateServiceInstanceBindingRequest = CreateServiceInstanceBindingRequest(
    bindingId: JString, serviceInstanceId: JString, serviceDefinition: ServiceDefinition)

  datatype DeleteServiceInstanceBindingRequest = DeleteServiceInstanceBindingRequest(
    bindingId: JString, serviceInstanceId: JString)

  /** CreateServiceInstanceAppBindingResponse: starts without credentials;
      withCredentials sets them and returns the response itself. */
  class AppBindingResponse {
    var credentials: Nullable<map<string, JString>>

    constructor ()
      ensures credentials == Null
    {
      credentials := Null;
    }

    method WithCredentials(credentials: map<string, JString>) returns (self: AppBindingResponse)
      modifies this
      ensures self == this && this.credentials == Val(credentials)
    {
      this.credentials := Val(credentials);
      self := this;
    }
  }
}

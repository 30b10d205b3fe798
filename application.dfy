/** ServiceBrokerSampleApplication: the published catalog and the binding
    handler built on the catalog properties. */
module ServiceBrokerApplication {
  import opened Java
  import opened BrokerModel
  import opened Credentials
  import opened ServiceTemplates
  import opened CatalogBuilder

  /** The `catalog` bean: one entry per configured template, in order, with
      identifiers drawn from `ids` in call order. */
  function CatalogBean(properties: CatalogProperties, ids: seq<string>): (c: Catalog)
    reads properties, properties.services
    requires IdsNeeded(properties.services) <= |ids|
    ensures |c.serviceDefinitions| == |properties.services|
    ensures forall i :: 0 <= i < |c.serviceDefinitions| ==>
              DefinitionFor(c.serviceDefinitions[i], properties.services[i])
    ensures CatalogIds(c.serviceDefinitions) == ids[..IdsNeeded(properties.services)]
  {
    Catalog(properties.GetServiceDefinitions(ids))
  }

  /** The published catalog carries no identifier twice when the identifier
      supply never repeats itself. */
  lemma CatalogBeanIdsDistinct(properties: CatalogProperties, ids: seq<string>)
    requires IdsNeeded(properties.services) <= |ids| && Distinct(ids)
    ensures Distinct(CatalogIds(CatalogBean(properties, ids).serviceDefinitions))
    ensures var defs := CatalogBean(properties, ids).serviceDefinitions;
            forall i, j :: 0 <= i < j < |defs| ==> defs[i].id != defs[j].id
  {
    CatalogIdsDistinct(properties.services, ids);
    DistinctIdsPairwise(CatalogBean(properties, ids).serviceDefinitions);
  }

  class StaticServiceInstanceBindingService {
    var catalogProperties: CatalogProperties

    constructor (catalogProperties: CatalogProperties)
      ensures this.catalogProperties == catalogProperties
    {
      this.catalogProperties := catalogProperties;
    }

    /** A new response carrying buildCredentials of the requested service's
        name; an exception from buildCredentials propagates instead. */
    method CreateServiceInstanceBinding(request: CreateServiceInstanceBindingRequest) returns (r: Result<AppBindingResponse>)
      ensures var expected := catalogProperties.CredentialsFor(request.serviceDefinition.name);
              && (r.Success? <==> expected.Success?)
              && (r.Failure? ==> r.error == expected.error)
              && (r.Success? ==> fresh(r.value) && r.value.credentials == Val(expected.value))
    {
      var response := new AppBindingResponse();
      var credentials := catalogProperties.BuildCredentials(request.serviceDefinition.name);
      if credentials.Failure? {
        return Failure(credentials.error);
      }
      var withCredentials := response.WithCredentials(credentials.value);
      return Success(withCredentials);
    }

    /** Unbinding does nothing. */
    method DeleteServiceInstanceBinding(request: DeleteServiceInstanceBindingRequest)
      ensures unchanged(this, catalogProperties)
    {
    }
  }

  /** The configuration of one database service, its catalog and two binding
      requests, one for a configured and one for an unknown service. */
  method DatabaseScenario() {
    var credentials := new CredentialProperties();
    credentials.SetUri(Val("postgres://h"));
    credentials.SetAuthentication(Val("token123"));
    var db := new ServiceDefinitionProperties.WithName(Val("db"), Val("A database"));
    db.SetPlans(["small", "large"]);
    db.SetTags(["sql"]);
    db.SetCredentials(credentials);
    var properties := new CatalogProperties();
    properties.SetServices([db]);
    var init := properties.InitializeServicesIndexedByName();
    assert init.Pass?;

    var catalog := CatalogBean(properties, ["id-1", "id-2", "id-3"]);
    assert |catalog.serviceDefinitions| == 1;
    var offering := catalog.serviceDefinitions[0];
    assert offering.name == Val("db") && offering.tags == ["sql"];
    assert |offering.plans| == 2 && offering.plans[0].name == "small" && offering.plans[1].name == "large";

    var service := new StaticServiceInstanceBindingService(properties);
    var bound := service.CreateServiceInstanceBinding(
      CreateServiceInstanceBindingRequest(Val("b-1"), Val("i-1"), offering));
    assert bound.Success?;
    assert bound.value.credentials == Val(map[UriKey := Val("postgres://h"), AuthenticationKey := Val("token123")]);

    var cache := offering.(name := Val("cache"));
    var unknown := service.CreateServiceInstanceBinding(
      CreateServiceInstanceBindingRequest(Val("b-2"), Val("i-2"), cache));
    assert unknown == Failure(NoSuchElement(Val("cache")));
  }
}

/** StaticServiceInstanceService: instance handlers that accept every request. */
module StaticServiceInstanceService {
  import opened Java
  import opened BrokerModel

  /** Provisioning is accepted synchronously, whatever the request. */
  function CreateServiceInstance(request: CreateServiceInstanceRequest): (r: Nullable<CreateServiceInstanceResponse>)
    ensures r.Val? && !r.value.async
  {
    Val(CreateServiceInstanceResponse(false, Null))
  }

  /** Not implemented: no operation status is ever reported. */
  function GetLastOperation(request: GetLastServiceOperationRequest): (r: Nullable<GetLastServiceOperationResponse>)
    ensures r.Null?
  {
    Null
  }

  /** Deprovisioning is accepted synchronously, whatever the request. */
  function DeleteServiceInstance(request: DeleteServiceInstanceRequest): (r: Nullable<DeleteServiceInstanceResponse>)
    ensures r.Val? && !r.value.async
  {
    Val(DeleteServiceInstanceResponse(false))
  }

  /** Not implemented: yields no response. */
  function UpdateServiceInstance(request: UpdateServiceInstanceRequest): (r: Nullable<UpdateServiceInstanceResponse>)
    ensures r.Null?
  {
    Null
  }
}

/** NoOpServiceInstanceService: every instance handler yields no response. */
module NoOpServiceInstanceService {
  import opened Java
  import opened BrokerModel

  function CreateServiceInstance(request: CreateServiceInstanceRequest): (r: Nullable<CreateServiceInstanceResponse>)
    ensures r.Null?
  {
    Null
  }

  function GetLastOperation(request: GetLastServiceOperationRequest): (r: Nullable<GetLastServiceOperationResponse>)
    ensures r.Null?
  {
    Null
  }

  function DeleteServiceInstance(request: DeleteServiceInstanceRequest): (r: Nullable<DeleteServiceInstanceResponse>)
    ensures r.Null?
  {
    Null
  }

  function UpdateServiceInstance(request: UpdateServiceInstanceRequest): (r: Nullable<UpdateServiceInstanceResponse>)
    ensures r.Null?
  {
    Null
  }
}

# Service broker catalog and credentials, modelled in Dafny

This project models the core of a sample Open Service Broker (API v2) for
Cloud Foundry. The core is the `CatalogProperties` configuration object. It
keeps the list of configured service templates (`ServiceDefinitionProperties`,
each with its `CredentialProperties`) and an index of those templates by name.
From these it derives two things:

- the catalog the broker advertises: one service offering per template, with
  one plan per plan name, each carrying a freshly generated identifier;
- the credentials map handed out on binding: `uri` and `authentication` of
  the template found by name.

On top of the core sit the broker handlers. The binding handler returns the
credentials of the requested service, or lets the lookup's exception pass
through. The instance handlers return constant results.

Modules, one per source class or group:

- `Java` (java.dfy): nullable references (`Nullable`, `JString`), the
  exceptions that can occur (`NoSuchElement`, `IllegalState` for a repeated
  key, `NullPointer`), and `Result`/`Outcome` for "returns or throws".
- `Credentials` (credentials.dfy): the class `CredentialProperties`. It also
  holds `ObjectMap`, a caller-owned `java.util.Map`, and `Stored`, the map
  that `put` leaves behind.
- `ServiceTemplates` (service_definitions.dfy): the mutable record
  `ServiceDefinitionProperties`.
- `BrokerModel` (broker_model.dfy): the protocol objects (`ServiceDefinition`,
  `Plan`, `Catalog`, requests and responses), cut down to the fields the broker
  reads or sets. The protocol's `requires` field is called
  `requiredPermissions`, because `requires` is a Dafny keyword.
- `CatalogBuilder` (catalog_builder.dfy): the catalog derivation
  (`BuildPlans`, `ServiceDefinitions`), the name index (`IndexByName`), the
  class `CatalogProperties`, and the lemmas about identifiers and lookups.
- `ServiceBrokerApplication`, `StaticServiceInstanceService` and
  `NoOpServiceInstanceService` (application.dfy): the catalog bean and the
  handlers. `DatabaseScenario` builds a configuration with one `db` service
  and checks its catalog and two binding requests, using only the contracts.

Java `null` is modelled explicitly wherever the code's behaviour depends on
it. Name, description, uri and authentication may be null. A template's
`credentials` may be null, and then `buildCredentials` throws a
`NullPointerException`.

`newId()` draws a random UUID. In the model, the identifiers are a parameter
`ids`: the values that successive `newId()` calls return, in call order. For
each service, the service's id is drawn before its plans' ids; then the next
service follows. `IdsNeeded(services)` says how many identifiers one
derivation draws. The catalog's identifiers, read in order (`CatalogIds`), are
exactly the first `IdsNeeded` values of the supply. When the supply never
repeats a value, as a UUID source is meant not to, every identifier in the
catalog is distinct.

Behaviour of the code that is easy to miss:

- `setServices` does not rebuild the name index. Lookups keep using the index
  built by the last successful `initializeServicesIndexedByName`.
- Identifiers are regenerated on every derivation, so two derivations agree
  on everything except identifiers (`CatalogDiffersOnlyInIds`).
- Null `uri`/`authentication` values pass through into the map. A null
  `credentials` object makes the binding fail with a `NullPointerException`.
- Duplicate template names do not silently overwrite. The index
  construction throws `IllegalStateException` and leaves the old index in
  place.

## Model

| member | source | states |
|---|---|---|
| `CatalogBuilder.BuildPlans` | src/main/java/com/servicebroker/CatalogProperties.java:43-45 | one plan per plan name, in order; each plan has that name as name and description, no metadata, free = true; the plan ids are exactly the ids drawn, in order |
| `CatalogBuilder.ServiceDefinitions` | src/main/java/com/servicebroker/CatalogProperties.java:38-41 | one definition per template, in order (an empty list gives an empty catalog); name, description and tags copied; bindable and plan-updateable true; metadata, requires and dashboard client null; plans built from the template's plan names; the catalog's ids are the first IdsNeeded ids drawn, service id before its plan ids |
| `CatalogBuilder.CatalogDiffersOnlyInIds` | src/main/java/com/servicebroker/CatalogProperties.java:38-45 | two derivations from the same templates with different id supplies are equal once identifiers are blanked |
| `CatalogBuilder.CatalogIdsDistinct` | src/main/java/com/servicebroker/CatalogProperties.java:55-63 | with an id supply that never repeats, no identifier occurs twice in the catalog |
| `CatalogBuilder.DistinctIdsPairwise` | src/main/java/com/servicebroker/CatalogProperties.java:55-63 | distinct catalog ids mean: service ids pairwise distinct, no plan id equals any service id, and plan ids pairwise distinct within and across services |
| `CatalogBuilder.IndexByName` | src/main/java/com/servicebroker/CatalogProperties.java:35 | succeeds exactly when the names are distinct, and then maps each configured name to the template carrying it and no other key; otherwise fails with IllegalState on the first repeated name |
| `CatalogBuilder.CatalogProperties.constructor` | src/main/java/com/servicebroker/CatalogProperties.java:22-23 | starts with an empty template list and an empty index |
| `CatalogBuilder.CatalogProperties.GetServices` | src/main/java/com/servicebroker/CatalogProperties.java:25-27 | returns the template list itself, the one last stored by setServices (not the indexed one) |
| `CatalogBuilder.CatalogProperties.Lookup` | src/main/java/com/servicebroker/CatalogProperties.java:48 | HashMap.get on the index: non-null exactly for indexed names, and then the template indexed under that name |
| `CatalogBuilder.CatalogProperties.GetServiceDefinitions` | src/main/java/com/servicebroker/CatalogProperties.java:38-41 | over the current template list: one definition per template, in order, each the entry for its template (fields copied, flags true, nulls), ids the first IdsNeeded ones drawn in call order |
| `CatalogBuilder.CatalogProperties.SetServices` | src/main/java/com/servicebroker/CatalogProperties.java:29-32 | replaces the template list; the index and therefore every credential lookup stay as they were |
| `CatalogBuilder.CatalogProperties.InitializeServicesIndexedByName` | src/main/java/com/servicebroker/CatalogProperties.java:33-36 | passes exactly when the current names are distinct, and then the index is the name index of the current list; on a repeated name it fails with IllegalState on the first repeat and keeps the old index; the list is unchanged |
| `CatalogBuilder.CatalogProperties.CredentialsFor` | src/main/java/com/servicebroker/CatalogProperties.java:47-53 | NoSuchElement(name) exactly when the name is not indexed; NullPointer exactly when the indexed template has no credentials; success exactly when the name is indexed and its credentials are non-null, with a map whose only keys are uri and authentication, holding that template's credential values |
| `CatalogBuilder.CatalogProperties.BuildCredentials` | src/main/java/com/servicebroker/CatalogProperties.java:47-53 | returns or throws exactly what CredentialsFor states for the current index, building the map by put into a new map |
| `CatalogBuilder.LookupAfterIndexing` | src/main/java/com/servicebroker/CatalogProperties.java:34-50 | after indexing, a name is found exactly when a configured template carries it, it is found to be that template, and buildCredentials throws NoSuchElement exactly for names no template carries |
| `Credentials.Stored` | src/main/java/com/servicebroker/CredentialProperties.java:27-31 | after put, the map holds uri and authentication under their keys, keeps every other key and value, and gains no other key |
| `Credentials.StoredIdempotent` | src/main/java/com/servicebroker/CredentialProperties.java:28-29 | putting the same credentials twice gives the same map as once |
| `Credentials.StoredOverwrites` | src/main/java/com/servicebroker/CredentialProperties.java:27-29 | a later put overwrites the values of an earlier one under both keys |
| `Credentials.StoredIntoEmpty` | src/main/java/com/servicebroker/CredentialProperties.java:27-30 | put into an empty map yields exactly the two keys uri and authentication |
| `Credentials.CredentialProperties.constructor` | src/main/java/com/servicebroker/CredentialProperties.java:7-12 | uri and authentication start null |
| `Credentials.CredentialProperties.SetUri` | src/main/java/com/servicebroker/CredentialProperties.java:14-19 | getUri returns what setUri stored; authentication is untouched |
| `Credentials.CredentialProperties.SetAuthentication` | src/main/java/com/servicebroker/CredentialProperties.java:20-25 | getAuthentication returns what setAuthentication stored; uri is untouched |
| `Credentials.CredentialProperties.Put` | src/main/java/com/servicebroker/CredentialProperties.java:27-32 | returns the very map it was given, now Stored(old contents, uri, authentication), null values included |
| `ServiceTemplates.ServiceDefinitionProperties.constructor` | src/main/java/com/servicebroker/ServiceDefinitionProperties.java:7-17 | name, description and credentials null; plans and tags empty |
| `ServiceTemplates.ServiceDefinitionProperties.WithName` | src/main/java/com/servicebroker/ServiceDefinitionProperties.java:37-41 | name is the first argument, description the second; plans and tags empty; credentials null |
| `ServiceTemplates.ServiceDefinitionProperties.SetName` | src/main/java/com/servicebroker/ServiceDefinitionProperties.java:19-26 | getName returns what was stored; every other field unchanged |
| `ServiceTemplates.ServiceDefinitionProperties.SetDescription` | src/main/java/com/servicebroker/ServiceDefinitionProperties.java:29-35 | getDescription returns what was stored; every other field unchanged |
| `ServiceTemplates.ServiceDefinitionProperties.SetPlans` | src/main/java/com/servicebroker/ServiceDefinitionProperties.java:43-49 | getPlans returns what was stored; every other field unchanged |
| `ServiceTemplates.ServiceDefinitionProperties.SetTags` | src/main/java/com/servicebroker/ServiceDefinitionProperties.java:51-57 | getTags returns what was stored; every other field unchanged |
| `ServiceTemplates.ServiceDefinitionProperties.SetCredentials` | src/main/java/com/servicebroker/ServiceDefinitionProperties.java:59-65 | getCredentials returns what was stored; every other field unchanged |
| `BrokerModel.AppBindingResponse.constructor` | src/main/java/com/servicebroker/ServiceBrokerSampleApplication.java:96 | a new binding response starts without credentials |
| `BrokerModel.AppBindingResponse.WithCredentials` | src/main/java/com/servicebroker/ServiceBrokerSampleApplication.java:96-97 | the response now carries the given credentials and the call returns the response itself |
| `ServiceBrokerApplication.CatalogBean` | src/main/java/com/servicebroker/ServiceBrokerSampleApplication.java:29-32 | the published catalog is getServiceDefinitions of the configured properties: one entry per template, in order, each the entry for its template, ids drawn in call order |
| `ServiceBrokerApplication.CatalogBeanIdsDistinct` | src/main/java/com/servicebroker/ServiceBrokerSampleApplication.java:29-32 | with a non-repeating id supply, the published catalog has distinct ids, in particular distinct service ids |
| `ServiceBrokerApplication.StaticServiceInstanceBindingService.constructor` | src/main/java/com/servicebroker/ServiceBrokerSampleApplication.java:85-90 | the handler keeps the catalog properties it was given |
| `ServiceBrokerApplication.StaticServiceInstanceBindingService.CreateServiceInstanceBinding` | src/main/java/com/servicebroker/ServiceBrokerSampleApplication.java:92-102 | succeeds exactly when buildCredentials of the requested service's name does, with a new response whose credentials are that map; otherwise the same exception (NoSuchElement for an unknown name) and no response |
| `ServiceBrokerApplication.StaticServiceInstanceBindingService.DeleteServiceInstanceBinding` | src/main/java/com/servicebroker/ServiceBrokerSampleApplication.java:104-108 | changes nothing |
| `StaticServiceInstanceService.CreateServiceInstance` | src/main/java/com/servicebroker/ServiceBrokerSampleApplication.java:50-60 | always a non-null, synchronous response, whatever the request |
| `StaticServiceInstanceService.GetLastOperation` | src/main/java/com/servicebroker/ServiceBrokerSampleApplication.java:62-66 | always null |
| `StaticServiceInstanceService.DeleteServiceInstance` | src/main/java/com/servicebroker/ServiceBrokerSampleApplication.java:68-72 | always a non-null, synchronous response, whatever the request |
| `StaticServiceInstanceService.UpdateServiceInstance` | src/main/java/com/servicebroker/ServiceBrokerSampleApplication.java:74-78 | always null |
| `NoOpServiceInstanceService.CreateServiceInstance` | src/main/java/com/servicebroker/ServiceBrokerSampleApplication.java:114-118 | always null |
| `NoOpServiceInstanceService.GetLastOperation` | src/main/java/com/servicebroker/ServiceBrokerSampleApplication.java:120-124 | always null |
| `NoOpServiceInstanceService.DeleteServiceInstance` | src/main/java/com/servicebroker/ServiceBrokerSampleApplication.java:126-130 | always null |
| `NoOpServiceInstanceService.UpdateServiceInstance` | src/main/java/com/servicebroker/ServiceBrokerSampleApplication.java:132-136 | always null |

## Left out

- Spring Boot bootstrapping (`main`, `SpringApplication.run`) and the
  `@Bean`, `@Configuration` and `@ConfigurationProperties` wiring are not
  modelled. Binding the configuration file becomes calls to the setters.
  `@PostConstruct` becomes an explicit call to
  `InitializeServicesIndexedByName` after `SetServices`.
- The log lines of `createServiceInstance` and `createServiceInstanceBinding`
  are not modelled. They only feed a logger and do not affect any result.
- The randomness and the UUID format of `newId()` are not modelled. The
  identifiers are the parameter `ids`. Distinctness is proved under the
  assumption that the supply never repeats itself (`Distinct(ids)`).
- Null list references are not modelled: `setPlans(null)`, `setTags(null)`,
  `setServices(null)`, null elements in these lists, and a null map passed to
  `put`. Plans, tags and the template list are non-null sequences of non-null
  values. In Java, most of these cases end in a `NullPointerException`.
- Aliasing of the Java lists is not modelled. `getPlans`, `getTags` and
  `getServices` return the live list objects; here they return sequence
  values, so a caller that mutates a returned list is not modelled.
- The credentials map is copied rather than shared. `withCredentials` keeps
  a reference to the map; here the response holds the map's value. Nothing
  else holds that freshly built map.
- The Spring Cloud Service Broker model classes are reduced to the fields
  listed in `BrokerModel`. Their other fields and their JSON form are not
  modelled.
- `java.util.HashMap` and the stream machinery are replaced by Dafny maps
  and sequences. The text of the duplicate-key exception message is not
  modelled; the exception carries the repeated name.
- The binding request's service definition is always present. The framework
  resolves it from the catalog before calling the handler, so a null service
  definition is not modelled.
- HTTP routing, broker authentication and concurrent request handling are not
  part of this code and are not modelled.

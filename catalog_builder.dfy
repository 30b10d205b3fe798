/** CatalogProperties: the configured service templates, the index of them by
    name, and the catalog and binding credentials derived from them.

    newId() draws a random UUID. Here the identifiers are a parameter `ids`:
    the values that successive newId() calls return, in call order. Deriving
    the catalog calls newId() once for a service, then once for each of its
    plans, then moves to the next service. */
module CatalogBuilder {
  import opened Java
  import opened BrokerModel
  import opened Credentials
  import opened ServiceTemplates

  /** No value occurs twice. */
  predicate Distinct(s: seq<string>) {
    forall i, j :: 0 <= i < j < |s| ==> s[i] != s[j]
  }

  /** How many identifiers the catalog of `svcs` draws: one per service and
      one per plan. */
  function IdsNeeded(svcs: seq<ServiceDefinitionProperties>): nat
    reads svcs
  {
    if svcs == [] then 0 else 1 + |svcs[0].plans| + IdsNeeded(svcs[1..])
  }

  /** The plan identifiers, in order. */
  function PlanIds(plans: seq<Plan>): seq<string> {
    if plans == [] then [] else [plans[0].id] + PlanIds(plans[1..])
  }

  /** Every identifier a catalog carries, in order: each service's id
      followed by its plans' ids. */
  function CatalogIds(defs: seq<ServiceDefinition>): seq<string> {
    if defs == [] then [] else [defs[0].id] + PlanIds(defs[0].plans) + CatalogIds(defs[1..])
  }

  /** `plans` are the plans for `names`: one per name, in order, the name used
      as both name and description, no metadata, free. */
  predicate PlansFor(plans: seq<Plan>, names: seq<string>) {
    && |plans| == |names|
    && forall j :: 0 <= j < |plans| ==>
         && plans[j].name == names[j]
         && plans[j].description == names[j]
         && plans[j].metadata == Null
         && plans[j].free
  }

  /** `d` is the catalog entry for template `s`: name, description and tags
      copied, bindable and plan-updateable, its plans built from the plan
      names, metadata, requires and dashboard client null. */
  predicate DefinitionFor(d: ServiceDefinition, s: ServiceDefinitionProperties)
    reads s
  {
    && d.name == s.name
    && d.description == s.description
    && d.tags == s.tags
    && d.bindable
    && d.planUpdateable
    && PlansFor(d.plans, s.plans)
    && d.metadata == Null
    && d.requiredPermissions == Null
    && d.dashboardClient == Null
  }

  lemma PrefixConcat(ids: seq<string>, k: nat, n: nat)
    requires 1 + k + n <= |ids|
    ensures [ids[0]] + ids[1..][..k] + ids[1 + k..][..n] == ids[..1 + k + n]
  {
  }

  /** buildPlans: one plan per plan name; ids[j] is the id the j-th plan draws. */
  function BuildPlans(plans: seq<string>, ids: seq<string>): (r: seq<Plan>)
    requires |plans| <= |ids|
    ensures PlansFor(r, plans)
    ensures PlanIds(r) == ids[..|plans|]
  {
    if plans == [] then []
    else
      var rest := BuildPlans(plans[1..], ids[1..]);
      assert ids[..|plans|] == [ids[0]] + ids[1..][..|plans| - 1];
      [Plan(ids[0], plans[0], plans[0], Null, true)] + rest
  }

  /** getServiceDefinitions, as the stream over the list `svcs`. */
  function ServiceDefinitions(svcs: seq<ServiceDefinitionProperties>, ids: seq<string>): (r: seq<ServiceDefinition>)
    reads svcs
    requires IdsNeeded(svcs) <= |ids|
    ensures |r| == |svcs|
    ensures forall i :: 0 <= i < |r| ==> DefinitionFor(r[i], svcs[i])
    ensures CatalogIds(r) == ids[..IdsNeeded(svcs)]
  {
    if svcs == [] then []
    else
      var s := svcs[0];
      var k := |s.plans|;
      var d := ServiceDefinition(ids[0], s.name, s.description, true, true,
                                 BuildPlans(s.plans, ids[1..]), s.tags, Null, Null, Null);
      var rest := ServiceDefinitions(svcs[1..], ids[1 + k..]);
      assert ([d] + rest)[1..] == rest;
      PrefixConcat(ids, k, IdsNeeded(svcs[1..]));
      [d] + rest
  }

  /** The catalog with every identifier blanked: what two derivations from
      the same templates have in common. */
  function WithoutIds(defs: seq<ServiceDefinition>): seq<ServiceDefinition> {
    if defs == [] then []
    else [defs[0].(id := "", plans := PlansWithoutIds(defs[0].plans))] + WithoutIds(defs[1..])
  }

  function PlansWithoutIds(plans: seq<Plan>): seq<Plan> {
    if plans == [] then [] else [plans[0].(id := "")] + PlansWithoutIds(plans[1..])
  }

  lemma {:induction false} PlansWithoutIdsIgnoresIds(plans: seq<string>, ids1: seq<string>, ids2: seq<string>)
    requires |plans| <= |ids1| && |plans| <= |ids2|
    ensures PlansWithoutIds(BuildPlans(plans, ids1)) == PlansWithoutIds(BuildPlans(plans, ids2))
  {
    if plans != [] {
      PlansWithoutIdsIgnoresIds(plans[1..], ids1[1..], ids2[1..]);
    }
  }

  /** Two derivations of the catalog from the same templates differ at most
      in their identifiers. */
  lemma {:induction false} CatalogDiffersOnlyInIds(svcs: seq<ServiceDefinitionProperties>, ids1: seq<string>, ids2: seq<string>)
    requires IdsNeeded(svcs) <= |ids1| && IdsNeeded(svcs) <= |ids2|
    ensures WithoutIds(ServiceDefinitions(svcs, ids1)) == WithoutIds(ServiceDefinitions(svcs, ids2))
  {
    if svcs != [] {
      var k := |svcs[0].plans|;
      PlansWithoutIdsIgnoresIds(svcs[0].plans, ids1[1..], ids2[1..]);
      CatalogDiffersOnlyInIds(svcs[1..], ids1[1 + k..], ids2[1 + k..]);
    }
  }

  /** With a supply of distinct identifiers the catalog's identifiers are
      pairwise distinct. */
  lemma CatalogIdsDistinct(svcs: seq<ServiceDefinitionProperties>, ids: seq<string>)
    requires IdsNeeded(svcs) <= |ids| && Distinct(ids)
    ensures Distinct(CatalogIds(ServiceDefinitions(svcs, ids)))
  {
  }

  lemma DistinctSplit(a: seq<string>, b: seq<string>)
    requires Distinct(a + b)
    ensures Distinct(a) && Distinct(b)
    ensures forall x :: x in a ==> x !in b
  {
    forall i, j | 0 <= i < |a| && 0 <= j < |b|
      ensures a[i] != b[j]
    {
      assert (a + b)[i] != (a + b)[|a| + j];
    }
    forall i, j | 0 <= i < j < |a|
      ensures a[i] != a[j]
    {
      assert (a + b)[i] != (a + b)[j];
    }
    forall i, j | 0 <= i < j < |b|
      ensures b[i] != b[j]
    {
      assert (a + b)[|a| + i] != (a + b)[|a| + j];
    }
  }

  lemma {:induction false} PlanIdsMembers(plans: seq<Plan>)
    ensures |PlanIds(plans)| == |plans|
    ensures forall k :: 0 <= k < |plans| ==> PlanIds(plans)[k] == plans[k].id
  {
    if plans != [] {
      PlanIdsMembers(plans[1..]);
    }
  }

  lemma {:induction false} CatalogIdsMembers(defs: seq<ServiceDefinition>)
    ensures forall i :: 0 <= i < |defs| ==> defs[i].id in CatalogIds(defs)
    ensures forall i, k :: 0 <= i < |defs| && 0 <= k < |defs[i].plans| ==> defs[i].plans[k].id in CatalogIds(defs)
  {
    if defs != [] {
      PlanIdsMembers(defs[0].plans);
      CatalogIdsMembers(defs[1..]);
      assert forall i :: 1 <= i < |defs| ==> defs[i] == defs[1..][i - 1];
    }
  }

  /** Distinct catalog identifiers, spelled out: no two services share an id,
      no plan shares an id with a service, and no two plans share an id. */
  lemma {:induction false} DistinctIdsPairwise(defs: seq<ServiceDefinition>)
    requires Distinct(CatalogIds(defs))
    ensures forall i, j :: 0 <= i < j < |defs| ==> defs[i].id != defs[j].id
    ensures forall i, j, k :: 0 <= i < |defs| && 0 <= j < |defs| && 0 <= k < |defs[j].plans| ==>
              defs[i].id != defs[j].plans[k].id
    ensures forall i, k, l :: 0 <= i < |defs| && 0 <= k < l < |defs[i].plans| ==>
              defs[i].plans[k].id != defs[i].plans[l].id
    ensures forall i, j, k, l :: 0 <= i < j < |defs| && 0 <= k < |defs[i].plans| && 0 <= l < |defs[j].plans| ==>
              defs[i].plans[k].id != defs[j].plans[l].id
  {
    if defs != [] {
      var head := [defs[0].id] + PlanIds(defs[0].plans);
      var tail := defs[1..];
      assert CatalogIds(defs) == head + CatalogIds(tail);
      DistinctSplit(head, CatalogIds(tail));
      DistinctSplit([defs[0].id], PlanIds(defs[0].plans));
      DistinctIdsPairwise(tail);
      CatalogIdsMembers(tail);
      PlanIdsMembers(defs[0].plans);
      assert forall i :: 1 <= i < |defs| ==> defs[i] == tail[i - 1];
      forall k, l | 0 <= k < l < |defs[0].plans|
        ensures defs[0].plans[k].id != defs[0].plans[l].id
      {
        assert PlanIds(defs[0].plans)[k] != PlanIds(defs[0].plans)[l];
      }
      forall i, j, k | 0 <= i < |defs| && 0 <= j < |defs| && 0 <= k < |defs[j].plans|
        ensures defs[i].id != defs[j].plans[k].id
      {
        if i == 0 && j == 0 {
          assert defs[0].plans[k].id == PlanIds(defs[0].plans)[k];
        } else if i == 0 {
          assert defs[j].plans[k].id in CatalogIds(tail);
          assert defs[0].id in head;
        } else if j == 0 {
          assert defs[i].id in CatalogIds(tail);
          assert defs[0].plans[k].id in head;
        }
      }
    }
  }

  /** No two templates in `svcs` carry the same name. */
  predicate NamesDistinct(svcs: seq<ServiceDefinitionProperties>)
    reads svcs
  {
    forall i, j :: 0 <= i < j < |svcs| ==> svcs[i].name != svcs[j].name
  }

  /** Position `j` holds the first name that repeats an earlier one. */
  predicate FirstRepeat(svcs: seq<ServiceDefinitionProperties>, j: int)
    reads svcs
  {
    && 0 <= j < |svcs|
    && NamesDistinct(svcs[..j])
    && exists i :: 0 <= i < j && svcs[i].name == svcs[j].name
  }

  /** `index` holds exactly the names of `svcs`, each mapped to the template
      that carries it. */
  predicate IndexOf(index: map<JString, ServiceDefinitionProperties>, svcs: seq<ServiceDefinitionProperties>)
    reads svcs
  {
    && index.Keys == (set i | 0 <= i < |svcs| :: svcs[i].name)
    && forall i :: 0 <= i < |svcs| ==> index[svcs[i].name] == svcs[i]
  }

  /** Collectors.toMap(getName, identity) over `svcs`: the name index, or the
      IllegalStateException raised at the first repeated name. */
  method IndexByName(svcs: seq<ServiceDefinitionProperties>) returns (r: Result<map<JString, ServiceDefinitionProperties>>)
    ensures r.Success? <==> NamesDistinct(svcs)
    ensures r.Success? ==> IndexOf(r.value, svcs)
    ensures r.Failure? ==> exists j :: FirstRepeat(svcs, j) && r.error == IllegalState(svcs[j].name)
  {
    var index: map<JString, ServiceDefinitionProperties> := map[];
    for k := 0 to |svcs|
      invariant NamesDistinct(svcs[..k])
      invariant IndexOf(index, svcs[..k])
    {
      var name := svcs[k].name;
      if name in index {
        var i :| 0 <= i < k && svcs[..k][i].name == name;
        assert FirstRepeat(svcs, k);
        return Failure(IllegalState(name));
      }
      assert svcs[..k + 1] == svcs[..k] + [svcs[k]];
      index := index[name := svcs[k]];
    }
    assert svcs[..|svcs|] == svcs;
    return Success(index);
  }

  class CatalogProperties {
    var services: seq<ServiceDefinitionProperties>
    var servicesIndexedByServiceName: map<JString, ServiceDefinitionProperties>

    constructor ()
      ensures services == [] && servicesIndexedByServiceName == map[]
    {
      services := [];
      servicesIndexedByServiceName := map[];
    }

    /** The live template list: the one last given to setServices. */
    function GetServices(): (r: seq<ServiceDefinitionProperties>)
      reads this
      ensures r == services
    {
      services
    }

    /** HashMap.get on the index: the template, or null. */
    function Lookup(serviceName: JString): (sdp: ServiceDefinitionProperties?)
      reads this`servicesIndexedByServiceName
      ensures sdp != null <==> serviceName in servicesIndexedByServiceName
      ensures sdp != null ==> sdp == servicesIndexedByServiceName[serviceName]
    {
      if serviceName in servicesIndexedByServiceName then servicesIndexedByServiceName[serviceName] else null
    }

    /** The credential objects of the indexed templates. */
    function IndexedCredentials(): set<CredentialProperties>
      reads this`servicesIndexedByServiceName, servicesIndexedByServiceName.Values
    {
      set sdp | sdp in servicesIndexedByServiceName.Values && sdp.credentials != null :: sdp.credentials
    }

    /** What buildCredentials(serviceName) yields in the current state. */
    function CredentialsFor(serviceName: JString): (r: Result<map<string, JString>>)
      reads this`servicesIndexedByServiceName, servicesIndexedByServiceName.Values, IndexedCredentials()
      ensures r == Failure(NoSuchElement(serviceName)) <==> serviceName !in servicesIndexedByServiceName
      ensures r == Failure(NullPointer) <==>
                serviceName in servicesIndexedByServiceName && servicesIndexedByServiceName[serviceName].credentials == null
      ensures r.Success? <==>
                serviceName in servicesIndexedByServiceName && servicesIndexedByServiceName[serviceName].credentials != null
      ensures r.Success? ==>
                && serviceName in servicesIndexedByServiceName
                && var c := servicesIndexedByServiceName[serviceName].credentials;
                && c != null
                && r.value.Keys == {UriKey, AuthenticationKey}
                && r.value[UriKey] == c.uri
                && r.value[AuthenticationKey] == c.authentication
    {
      var sdp := Lookup(serviceName);
      if sdp == null then Failure(NoSuchElement(serviceName))
      else if sdp.credentials == null then Failure(NullPointer)
      else Success(Stored(map[], sdp.credentials.uri, sdp.credentials.authentication))
    }

    /** Replaces the template list; the index is left as it was. */
    method SetServices(services: seq<ServiceDefinitionProperties>)
      modifies this
      ensures GetServices() == services
      ensures servicesIndexedByServiceName == old(servicesIndexedByServiceName)
      ensures forall n: JString :: old(allocated(n)) ==> CredentialsFor(n) == old(CredentialsFor(n))
    {
      this.services := services;
    }

    /** Rebuilds the index from the current template list. On a repeated
        name the exception leaves the old index in place. */
    method InitializeServicesIndexedByName() returns (outcome: Outcome)
      modifies this
      ensures services == old(services)
      ensures outcome.Pass? <==> NamesDistinct(services)
      ensures outcome.Pass? ==> IndexOf(servicesIndexedByServiceName, services)
      ensures outcome.Fail? ==> servicesIndexedByServiceName == old(servicesIndexedByServiceName)
      ensures outcome.Fail? ==> exists j :: FirstRepeat(services, j) && outcome.error == IllegalState(services[j].name)
    {
      var index := IndexByName(services);
      if index.Failure? {
        return Fail(index.error);
      }
      servicesIndexedByServiceName := index.value;
      return Pass;
    }

    /** getServiceDefinitions over the current template list. */
    function GetServiceDefinitions(ids: seq<string>): (r: seq<ServiceDefinition>)
      reads this, services
      requires IdsNeeded(services) <= |ids|
      ensures |r| == |services|
      ensures forall i :: 0 <= i < |r| ==> DefinitionFor(r[i], services[i])
      ensures CatalogIds(r) == ids[..IdsNeeded(services)]
    {
      ServiceDefinitions(services, ids)
    }

    /** buildCredentials: the credentials of the indexed template named
        `serviceName`, written by its CredentialProperties into a new map. */
    method BuildCredentials(serviceName: JString) returns (r: Result<map<string, JString>>)
      ensures r == CredentialsFor(serviceName)
    {
      var sdp := Lookup(serviceName);
      if sdp == null {
        return Failure(NoSuchElement(serviceName));
      }
      var credentials := sdp.credentials;
      if credentials == null {
        return Failure(NullPointer);
      }
      var m := new ObjectMap();
      var filled := credentials.Put(m);
      return Success(filled.entries);
    }
  }

  /** Once the index is built from the template list, a name is found exactly
      when some template carries it, and it is found to be that template. */
  lemma LookupAfterIndexing(cp: CatalogProperties, name: JString)
    requires IndexOf(cp.servicesIndexedByServiceName, cp.services)
    ensures cp.Lookup(name) != null <==> exists i :: 0 <= i < |cp.services| && cp.services[i].name == name
    ensures forall i :: 0 <= i < |cp.services| && cp.services[i].name == name ==> cp.Lookup(name) == cp.services[i]
    ensures cp.CredentialsFor(name) == Failure(NoSuchElement(name)) <==>
              forall i :: 0 <= i < |cp.services| ==> cp.services[i].name != name
  {
    if name in cp.servicesIndexedByServiceName {
      var i :| 0 <= i < |cp.services| && cp.services[i].name == name;
    }
  }
}

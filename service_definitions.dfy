/** ServiceDefinitionProperties: the configured template of one offerable
    service, a mutable record. */
module ServiceTemplates {
  import opened Java
  import opened Credentials

  class ServiceDefinitionProperties {
    var name: JString
    var description: JString
    var plans: seq<string>
    var tags: seq<string>
    var credentials: CredentialProperties?

    /** The no-argument constructor: only the two lists are initialised. */
    constructor ()
      ensures name == Null && description == Null && credentials == null
      ensures plans == [] && tags == []
    {
      name := Null;
      description := Null;
      plans := [];
      tags := [];
      credentials := null;
    }

    /** The two-argument constructor: the first argument becomes the name. */
    constructor WithName(id: JString, description: JString)
      ensures name == id && this.description == description && credentials == null
      ensures plans == [] && tags == []
    {
      name := id;
      this.description := description;
      plans := [];
      tags := [];
      credentials := null;
    }

    function GetName(): JString
      reads this
    {
      name
    }

    method SetName(name: JString)
      modifies this
      ensures GetName() == name
      ensures description == old(description) && plans == old(plans) && tags == old(tags)
      ensures credentials == old(credentials)
    {
      this.name := name;
    }

    function GetDescription(): JString
      reads this
    {
      description
    }

    method SetDescription(description: JString)
      modifies this
      ensures GetDescription() == description
      ensures name == old(name) && plans == old(plans) && tags == old(tags)
      ensures credentials == old(credentials)
    {
      this.description := description;
    }

    function GetPlans(): seq<string>
      reads this
    {
      plans
    }

    method SetPlans(plans: seq<string>)
      modifies this
      ensures GetPlans() == plans
      ensures name == old(name) && description == old(description) && tags == old(tags)
      ensures credentials == old(credentials)
    {
      this.plans := plans;
    }

    function GetTags(): seq<string>
      reads this
    {
      tags
    }

    method SetTags(tags: seq<string>)
      modifies this
      ensures GetTags() == tags
      ensures name == old(name) && description == old(description) && plans == old(plans)
      ensures credentials == old(credentials)
    {
      this.tags := tags;
    }

    function GetCredentials(): CredentialProperties?
      reads this
    {
      credentials
    }

    method SetCredentials(credentials: CredentialProperties?)
      modifies this
      ensures GetCredentials() == credentials
      ensures name == old(name) && description == old(description)
      ensures plans == old(plans) && tags == old(tags)
    {
      this.credentials := credentials;
    }
  }
}

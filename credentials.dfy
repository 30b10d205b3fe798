/** CredentialProperties: the connection credentials configured for one
    service, and how they are written into a binding's credential map. */
module Credentials {
  import opened Java

  const UriKey: string := "uri"
  const AuthenticationKey: string := "authentication"

  /** A caller-owned java.util.Map<String, Object>. A key mapped to `Null`
      is present with a null value. */
  class ObjectMap {
    var entries: map<string, JString>

    /** new HashMap<>() */
    constructor ()
      ensures entries == map[]
    {
      entries := map[];
    }

    /** Map.put(key, value); the previous value it returns is not used here. */
    method Put(key: string, value: JString)
      modifies this
      ensures entries == old(entries)[key := value]
    {
      entries := entries[key := value];
    }
  }

  /** The map `m` becomes after CredentialProperties.put with the given field
      values: both credential keys hold the fields, every other key is kept. */
  function Stored(m: map<string, JString>, uri: JString, authentication: JString): (r: map<string, JString>)
    ensures r.Keys == m.Keys + {UriKey, AuthenticationKey}
    ensures r[UriKey] == uri && r[AuthenticationKey] == authentication
    ensures forall k :: k in m && k != UriKey && k != AuthenticationKey ==> r[k] == m[k]
  {
    m[UriKey := uri][AuthenticationKey := authentication]
  }

  /** Writing the credentials a second time changes nothing. */
  lemma StoredIdempotent(m: map<string, JString>, uri: JString, authentication: JString)
    ensures Stored(Stored(m, uri, authentication), uri, authentication) == Stored(m, uri, authentication)
  {
    var once := Stored(m, uri, authentication);
    assert Stored(once, uri, authentication).Keys == once.Keys;
  }

  /** The last write wins: storing other values over earlier ones is the same
      as storing them alone. */
  lemma StoredOverwrites(m: map<string, JString>, u1: JString, a1: JString, u2: JString, a2: JString)
    ensures Stored(Stored(m, u1, a1), u2, a2) == Stored(m, u2, a2)
  {
    assert Stored(Stored(m, u1, a1), u2, a2).Keys == Stored(m, u2, a2).Keys;
  }

  /** Into an empty map, put yields exactly the two credential keys. */
  lemma StoredIntoEmpty(uri: JString, authentication: JString)
    ensures Stored(map[], uri, authentication).Keys == {UriKey, AuthenticationKey}
    ensures Stored(map[], uri, authentication) == map[UriKey := uri, AuthenticationKey := authentication]
  {
  }

  class CredentialProperties {
    var uri: JString
    var authentication: JString

    constructor ()
      ensures uri == Null && authentication == Null
    {
      uri := Null;
      authentication := Null;
    }

    function GetUri(): JString
      reads this
    {
      uri
    }

    method SetUri(uri: JString)
      modifies this
      ensures GetUri() == uri
      ensures authentication == old(authentication)
    {
      this.uri := uri;
    }

    function GetAuthentication(): JString
      reads this
    {
      authentication
    }

    method SetAuthentication(authentication: JString)
      modifies this
      ensures GetAuthentication() == authentication
      ensures uri == old(uri)
    {
      this.authentication := authentication;
    }

    /** Writes both fields into the caller's map, null values included, and
        returns that same map object. */
    method Put(m: ObjectMap) returns (r: ObjectMap)
      modifies m
      ensures r == m
      ensures m.entries == Stored(old(m.entries), uri, authentication)
    {
      m.Put(UriKey, uri);
      m.Put(AuthenticationKey, authentication);
      r := m;
    }
  }
}

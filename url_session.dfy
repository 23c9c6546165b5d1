/**
 * Persistence of a client's login in the page URL (src/ui/src/utils/session.ts):
 * the role, the session code and the optional API key are kept in the `role`,
 * `session` and `apiKey` query parameters, so that a reload restores them.
 *
 * The query string is modelled as a map from parameter name to value; the URL
 * written back with `history.replaceState` is returned as a value.
 */
module UrlSession {
  import opened Wrappers

  const RoleParam := "role"
  const SessionParam := "session"
  const ApiKeyParam := "apiKey"

  /** The client roles, in the order the login screen lists them. */
  const Roles: seq<string> := ["controller", "word_giver_1", "word_giver_2", "word_guesser"]

  /** `isValidRole`: membership in the role list, so exactly the four named roles. */
  function IsValidRole(role: string): (b: bool)
    ensures b <==>
      role == "controller" || role == "word_giver_1" || role == "word_giver_2" || role == "word_guesser"
  {
    role in Roles
  }

  /** The `ClientRole` string union. */
  type ClientRole = r: string | IsValidRole(r) witness "controller"

  /** What `loadSession` restores. */
  datatype SessionData = SessionData(role: ClientRole, sessionUuid: string, apiKey: Option<string>)

  /** JavaScript truthiness of a string that may be missing: present and non-empty. */
  predicate Truthy(s: Option<string>) {
    s.Some? && s.value != ""
  }

  /** `URLSearchParams.get`: the value of `key`, or null. */
  function Lookup(params: map<string, string>, key: string): (r: Option<string>)
    ensures r.Some? <==> key in params
    ensures r.Some? ==> r.value == params[key]
  {
    if key in params then Some(params[key]) else None
  }

  /** A mutable `URLSearchParams` object. */
  class SearchParams {
    var entries: map<string, string>

    constructor (search: map<string, string>)
      ensures entries == search
    {
      entries := search;
    }

    method Set(key: string, value: string)
      modifies this
      ensures entries == old(entries)[key := value]
    {
      entries := entries[key := value];
    }

    method Delete(key: string)
      modifies this
      ensures entries == old(entries) - {key}
    {
      entries := entries - {key};
    }

    /** `toString()` is the empty string exactly when no parameter is left. */
    predicate IsEmpty()
      reads this
    {
      entries == map[]
    }
  }

  /** The parts of `window.location` the module reads. */
  datatype Location = Location(pathname: string, search: map<string, string>)

  /** A URL written back: the path, and the query when there is one (`pathname?query`). */
  datatype Url = Url(pathname: string, query: Option<map<string, string>>)

  /** The parameters after saving: role and session set, the key set or removed, the rest kept. */
  function SavedParams(search: map<string, string>, role: ClientRole, sessionUuid: string, apiKey: Option<string>)
    : (r: map<string, string>)
    ensures RoleParam in r && r[RoleParam] == role
    ensures SessionParam in r && r[SessionParam] == sessionUuid
    ensures ApiKeyParam in r <==> Truthy(apiKey)
    ensures Truthy(apiKey) ==> r[ApiKeyParam] == apiKey.value
    ensures forall k :: k != RoleParam && k != SessionParam && k != ApiKeyParam ==>
      (k in r <==> k in search) && (k in r ==> r[k] == search[k])
  {
    var withSession := search[RoleParam := role][SessionParam := sessionUuid];
    if Truthy(apiKey) then withSession[ApiKeyParam := apiKey.value] else withSession - {ApiKeyParam}
  }

  /** `saveSession`: writes the login into the query, keeping every other parameter. */
  method SaveSession(location: Location, role: ClientRole, sessionUuid: string, apiKey: Option<string>)
    returns (newUrl: Url)
    ensures newUrl == Url(location.pathname, Some(SavedParams(location.search, role, sessionUuid, apiKey)))
  {
    var params := new SearchParams(location.search);
    params.Set(RoleParam, role);
    params.Set(SessionParam, sessionUuid);
    if Truthy(apiKey) {
      params.Set(ApiKeyParam, apiKey.value);
    } else {
      params.Delete(ApiKeyParam);
    }
    newUrl := Url(location.pathname, Some(params.entries));
  }

  /**
   * `loadSession`: the login stored in the query, when both role and session
   * are non-empty and the role is valid; the key only when it is non-empty.
   */
  function LoadSession(search: map<string, string>): (r: Option<SessionData>)
    ensures r.Some? <==>
      Truthy(Lookup(search, RoleParam)) && Truthy(Lookup(search, SessionParam)) && IsValidRole(search[RoleParam])
    ensures r.Some? ==>
      && r.value.role == search[RoleParam] && r.value.sessionUuid == search[SessionParam]
      && (r.value.apiKey.Some? <==> Truthy(Lookup(search, ApiKeyParam)))
      && (r.value.apiKey.Some? ==> r.value.apiKey.value == search[ApiKeyParam])
  {
    var role := Lookup(search, RoleParam);
    var sessionUuid := Lookup(search, SessionParam);
    var apiKey := Lookup(search, ApiKeyParam);
    if !Truthy(role) || !Truthy(sessionUuid) || !IsValidRole(role.value) then None
    else Some(SessionData(role.value, sessionUuid.value, if Truthy(apiKey) then apiKey else None))
  }

  /** The parameters after clearing: exactly the three login parameters are gone. */
  function ClearedParams(search: map<string, string>): (r: map<string, string>)
    ensures RoleParam !in r && SessionParam !in r && ApiKeyParam !in r
    ensures forall k :: k != RoleParam && k != SessionParam && k != ApiKeyParam ==>
      (k in r <==> k in search) && (k in r ==> r[k] == search[k])
  {
    search - {RoleParam, SessionParam, ApiKeyParam}
  }

  /** `clearSession`: drops the login; the URL is the bare path when no parameter is left. */
  method ClearSession(location: Location) returns (newUrl: Url)
    ensures newUrl.pathname == location.pathname
    ensures newUrl.query.None? <==> ClearedParams(location.search) == map[]
    ensures newUrl.query.Some? ==> newUrl.query.value == ClearedParams(location.search)
  {
    var params := new SearchParams(location.search);
    params.Delete(RoleParam);
    params.Delete(SessionParam);
    params.Delete(ApiKeyParam);
    assert params.entries.Keys == ClearedParams(location.search).Keys;
    if params.IsEmpty() {
      newUrl := Url(location.pathname, None);
    } else {
      newUrl := Url(location.pathname, Some(params.entries));
    }
  }

  /**
   * Saving and then loading gives back the role, the session and the key
   * (the key only when it is non-empty), provided the session is non-empty.
   */
  lemma SaveThenLoad(search: map<string, string>, role: ClientRole, sessionUuid: string, apiKey: Option<string>)
    ensures LoadSession(SavedParams(search, role, sessionUuid, apiKey)) ==
      if sessionUuid == "" then None
      else Some(SessionData(role, sessionUuid, if Truthy(apiKey) then apiKey else None))
  {
    var saved := SavedParams(search, role, sessionUuid, apiKey);
    var roleName: string := role;
    assert Lookup(saved, RoleParam) == Some(roleName);
    assert Lookup(saved, SessionParam) == Some(sessionUuid);
    if Truthy(apiKey) {
      assert Lookup(saved, ApiKeyParam) == apiKey;
    } else {
      assert Lookup(saved, ApiKeyParam) == None;
    }
  }

  /** After clearing, nothing is loaded. */
  lemma ClearThenLoad(search: map<string, string>)
    ensures LoadSession(ClearedParams(search)) == None
  {
    assert Lookup(ClearedParams(search), RoleParam) == None;
  }

  /** Clearing after saving leaves the other parameters exactly as they were before saving. */
  lemma SaveThenClear(search: map<string, string>, role: ClientRole, sessionUuid: string, apiKey: Option<string>)
    ensures ClearedParams(SavedParams(search, role, sessionUuid, apiKey)) == ClearedParams(search)
  {
    var a := ClearedParams(SavedParams(search, role, sessionUuid, apiKey));
    var b := ClearedParams(search);
    assert a.Keys == b.Keys;
  }
}

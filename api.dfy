/**
 * The shared API client of src/api/axios.ts: a fixed base URL and a request
 * interceptor that reads the persisted token on every request and, when it
 * is truthy, overwrites the `Authorization` header with a bearer credential.
 */
module Api {
  import opened Wrappers
  import opened BrowserStorage
  import opened SessionModel

  const BaseURL: string := "http://localhost:8080/api"
  const AuthorizationHeader: string := "Authorization"

  /** The headers a request leaves the interceptor with, given the stored token. */
  function WithBearer(headers: map<string, string>, stored: Option<string>): (r: map<string, string>)
    ensures TokenPresent(stored) ==> AuthorizationHeader in r && r[AuthorizationHeader] == "Bearer " + stored.value
    ensures !TokenPresent(stored) ==> r == headers
    ensures r.Keys == headers.Keys + (if TokenPresent(stored) then {AuthorizationHeader} else {})
    ensures forall h :: h in headers && h != AuthorizationHeader ==> r[h] == headers[h]
  {
    if stored.Some? && stored.value != "" then headers[AuthorizationHeader := "Bearer " + stored.value]
    else headers
  }

  /** The parts of an axios request configuration the interceptor can see. */
  class RequestConfig {
    var httpMethod: string
    var baseURL: string
    var url: string
    var headers: map<string, string>

    constructor (httpMethod: string, baseURL: string, url: string, headers: map<string, string>)
      ensures this.httpMethod == httpMethod && this.baseURL == baseURL
      ensures this.url == url && this.headers == headers
    {
      this.httpMethod := httpMethod;
      this.baseURL := baseURL;
      this.url := url;
      this.headers := headers;
    }
  }

  /**
   * The request interceptor: reads "jwtToken" now, assigns the header in place
   * when the token is truthy, and hands back the very same configuration.
   */
  method AttachToken(config: RequestConfig, storage: Storage) returns (r: RequestConfig)
    modifies config
    ensures r == config
    ensures config.headers == WithBearer(old(config.headers), StoredToken(storage.entries))
    ensures config.httpMethod == old(config.httpMethod) && config.baseURL == old(config.baseURL)
    ensures config.url == old(config.url)
  {
    var token := storage.GetItem(TokenKey);
    if token.Some? && token.value != "" {
      config.headers := config.headers[AuthorizationHeader := "Bearer " + token.value];
    }
    r := config;
  }

  /** The instance `axios.create` returns: every request it sends goes through `AttachToken`. */
  class ApiClient {
    const baseURL: string := BaseURL
    const storage: Storage

    constructor (storage: Storage)
      ensures this.storage == storage
    {
      this.storage := storage;
    }

    /** Builds a request from the instance defaults and the caller's options, then intercepts it. */
    method Prepare(httpMethod: string, url: string, callerHeaders: map<string, string>) returns (config: RequestConfig)
      ensures fresh(config)
      ensures config.baseURL == BaseURL && config.url == url && config.httpMethod == httpMethod
      ensures config.headers == WithBearer(callerHeaders, StoredToken(storage.entries))
    {
      config := new RequestConfig(httpMethod, baseURL, url, callerHeaders);
      config := AttachToken(config, storage);
    }
  }

  /**
   * A caller's own `Authorization` header (one built from a stale token, say)
   * is replaced whenever a truthy token is stored, and kept when none is.
   */
  lemma CallerHeaderOverridden(headers: map<string, string>, stale: string, stored: Option<string>)
    requires AuthorizationHeader in headers && headers[AuthorizationHeader] == stale
    ensures TokenPresent(stored) ==> WithBearer(headers, stored)[AuthorizationHeader] == "Bearer " + stored.value
    ensures !TokenPresent(stored) ==> WithBearer(headers, stored)[AuthorizationHeader] == stale
  {
  }

  /** The header depends on the stored "jwtToken" entry alone, read afresh for every request. */
  lemma HeaderReadsOnlyTokenKey(headers: map<string, string>, s1: map<string, string>, s2: map<string, string>)
    requires Lookup(s1, TokenKey) == Lookup(s2, TokenKey)
    ensures WithBearer(headers, StoredToken(s1)) == WithBearer(headers, StoredToken(s2))
  {
  }

  /**
   * The header a request carries after any sequence of logins and logouts on
   * a live page is decided by the last of them: the bearer form of the last
   * login's token, or the caller's headers untouched after a logout.
   */
  lemma HeaderFollowsLastSessionOp(p: Page, ops: seq<Op>, decode: Decoder, headers: map<string, string>)
    requires ops != []
    ensures Run(Live(p), ops, decode).Live? ==>
              WithBearer(headers, StoredToken(Run(Live(p), ops, decode).page.storage)) ==
                (match ops[|ops| - 1]
                 case Login(t) => if t != "" then headers[AuthorizationHeader := "Bearer " + t] else headers
                 case Logout => headers)
  {
    LastOpDecidesToken(p, ops, decode);
  }

  /** On every reachable page the header reflects the session's `token` slot. */
  lemma HeaderMatchesSessionToken(storage: map<string, string>, ops: seq<Op>, decode: Decoder, headers: map<string, string>)
    ensures Run(Boot(storage, decode), ops, decode).Live? ==>
              WithBearer(headers, StoredToken(Run(Boot(storage, decode), ops, decode).page.storage)) ==
                WithBearer(headers, Run(Boot(storage, decode), ops, decode).page.session.token)
  {
    ReachableStatesKeepInvariant(storage, ops, decode);
  }
}

/**
 * The Salesforce OAuth flow of the API server (main.py): the endpoints for
 * the production and sandbox environments, the state parameter the connect
 * route puts into the authorization redirect, and the checks the callback
 * applies to the code and state it receives before it asks for a token.
 */
module OAuth {
  import opened Wrappers
  import Base64
  import Utf8
  import StateJson
  import opened Strings

  /** The authorization and token endpoints of one Salesforce environment. */
  datatype Urls = Urls(authUrl: string, tokenUrl: string)

  const SandboxHost: string := "https://test.salesforce.com"
  const ProductionHost: string := "https://login.salesforce.com"
  const AuthorizePath: string := "/services/oauth2/authorize"
  const TokenPath: string := "/services/oauth2/token"

  /** What comes before the path in a URL that ends with it. */
  function HostOf(url: string, path: string): string
    requires EndsWith(url, path)
  {
    url[..|url| - |path|]
  }

  /**
   * get_salesforce_urls: both endpoints on one host, test.salesforce.com for
   * the environment "sandbox" and login.salesforce.com for every other
   * string, the empty one included.
   */
  function SalesforceUrls(environment: string): (u: Urls)
    ensures EndsWith(u.authUrl, AuthorizePath) && EndsWith(u.tokenUrl, TokenPath)
    ensures HostOf(u.authUrl, AuthorizePath) == HostOf(u.tokenUrl, TokenPath)
    ensures HostOf(u.tokenUrl, TokenPath) == SandboxHost <==> environment == "sandbox"
    ensures HostOf(u.tokenUrl, TokenPath) == ProductionHost <==> environment != "sandbox"
  {
    var host := if environment == "sandbox" then SandboxHost else ProductionHost;
    assert (host + AuthorizePath)[..|host|] == host;
    assert (host + TokenPath)[..|host|] == host;
    Urls(host + AuthorizePath, host + TokenPath)
  }

  lemma PrintableIsAscii(s: string)
    requires StateJson.IsPrintable(s)
    ensures Utf8.IsAscii(s)
  {
    forall i | 0 <= i < |s|
      ensures s[i] as int < 128
    {
      assert s[i] in s;
    }
  }

  /** The state of the connect route: base64 of the UTF-8 bytes of the JSON object {"userId", "environment"}. */
  function EncodeState(userId: string, environment: string): (state: string)
    ensures |state| % 4 == 0
    ensures forall i :: 0 <= i < |state| ==> state[i] as int < 128
  {
    var text := StateJson.DumpsState(userId, environment);
    StateJson.PairPrintable(StateJson.UserIdKey, userId, StateJson.EnvironmentKey, environment);
    PrintableIsAscii(text);
    Base64.Encode(Utf8.AsciiBytes(text))
  }

  /**
   * What the callback makes of a state: the JSON object found in the UTF-8
   * text of its base64 bytes, or None when any of the three steps fails.
   */
  function DecodeState(state: string): (obj: Option<map<string, string>>)
    ensures state == "" ==> obj.None?
  {
    match Base64.Decode(state)
    case None => None
    case Some(bytes) =>
      match Utf8.Decode(bytes)
      case None => None
      case Some(text) => StateJson.ParseObject(text)
  }

  /** The callback reads back the user and environment that the connect route put into the state. */
  lemma StateRoundTrip(userId: string, environment: string)
    ensures DecodeState(EncodeState(userId, environment))
      == Some(map[StateJson.UserIdKey := userId, StateJson.EnvironmentKey := environment])
  {
    var text := StateJson.DumpsState(userId, environment);
    StateJson.PairPrintable(StateJson.UserIdKey, userId, StateJson.EnvironmentKey, environment);
    PrintableIsAscii(text);
    Base64.RoundTrip(Utf8.AsciiBytes(text));
    Utf8.AsciiRoundTrip(text);
    StateJson.StateReadsBack(userId, environment);
  }

  /** The application's settings: CLIENT_ID, CLIENT_SECRET, REDIRECT_URI and FRONTEND_URL. */
  datatype Config = Config(clientId: string, clientSecret: string, redirectUri: string, frontendUrl: string)

  /**
   * The redirect of the connect route: the authorization endpoint and the
   * query parameters it carries, response_type, client_id, redirect_uri,
   * scope and state, in that order.
   */
  datatype AuthRedirect = AuthRedirect(url: string, responseType: string, clientId: string,
                                       redirectUri: string, scope: string, state: string)

  /**
   * connect_to_salesforce: send the user to the authorization endpoint of
   * the chosen environment, asking for an authorization code for this
   * application, with the user and environment carried in the state.
   */
  function ConnectRedirect(cfg: Config, environment: string, userId: string): (r: AuthRedirect)
    ensures r.url == SalesforceUrls(environment).authUrl
    ensures r.responseType == "code" && r.scope == "full refresh_token"
    ensures r.clientId == cfg.clientId && r.redirectUri == cfg.redirectUri
    ensures DecodeState(r.state) == Some(map[StateJson.UserIdKey := userId, StateJson.EnvironmentKey := environment])
  {
    StateRoundTrip(userId, environment);
    AuthRedirect(SalesforceUrls(environment).authUrl, "code", cfg.clientId, cfg.redirectUri,
                 "full refresh_token", EncodeState(userId, environment))
  }

  /** Why the callback answers 400 before or at the token request. */
  datatype CallbackError = MissingParameters | InvalidState | TokenRequestFailed

  /** What an accepted callback goes on with: the authorization code and the user and environment of the state. */
  datatype Grant = Grant(code: string, userId: string, environment: string)

  /**
   * The checks of oauth_callback before the token request: the code and the
   * state must both be present and non-empty, and the state must decode to
   * an object with a non-empty userId and a non-empty environment.
   */
  function CheckCallback(code: Option<string>, state: Option<string>): (r: Result<Grant, CallbackError>)
    ensures r == Err(MissingParameters) <==> code.None? || state.None? || code.value == "" || state.value == ""
    ensures r.Err? ==> r.error != TokenRequestFailed
    ensures r == Err(InvalidState) <==>
      && code.Some? && state.Some? && code.value != "" && state.value != ""
      && var obj := DecodeState(state.value);
         (|| obj.None?
          || StateJson.UserIdKey !in obj.value || obj.value[StateJson.UserIdKey] == ""
          || StateJson.EnvironmentKey !in obj.value || obj.value[StateJson.EnvironmentKey] == "")
    ensures r.Ok? ==> r.value.code == code.value && r.value.code != "" && r.value.userId != "" && r.value.environment != ""
    ensures r.Ok? ==>
      DecodeState(state.value).Some?
      && DecodeState(state.value).value[StateJson.UserIdKey] == r.value.userId
      && DecodeState(state.value).value[StateJson.EnvironmentKey] == r.value.environment
  {
    if code.None? || state.None? || code.value == "" || state.value == "" then Err(MissingParameters)
    else
      match DecodeState(state.value)
      case None => Err(InvalidState)
      case Some(obj) =>
        if StateJson.UserIdKey !in obj || obj[StateJson.UserIdKey] == "" then Err(InvalidState)
        else if StateJson.EnvironmentKey !in obj || obj[StateJson.EnvironmentKey] == "" then Err(InvalidState)
        else Ok(Grant(code.value, obj[StateJson.UserIdKey], obj[StateJson.EnvironmentKey]))
  }

  /** A present code and a state that decodes to obj: the callback's decision depends on obj alone. */
  lemma DecodedStateChecked(code: string, state: string, obj: map<string, string>)
    requires code != "" && state != "" && DecodeState(state) == Some(obj)
    ensures CheckCallback(Some(code), Some(state)) ==
      if StateJson.UserIdKey in obj && obj[StateJson.UserIdKey] != "" && StateJson.EnvironmentKey in obj && obj[StateJson.EnvironmentKey] != ""
      then Ok(Grant(code, obj[StateJson.UserIdKey], obj[StateJson.EnvironmentKey]))
      else Err(InvalidState)
  {
  }

  /**
   * A callback carrying a code and a state in which the connect route put a
   * user and an environment (ConnectRedirect gives such states) is accepted
   * exactly when both were non-empty, and then goes on with that code, user
   * and environment.
   */
  lemma ConnectedStateAccepted(code: string, state: string, environment: string, userId: string)
    requires code != ""
    requires DecodeState(state) == Some(map[StateJson.UserIdKey := userId, StateJson.EnvironmentKey := environment])
    ensures CheckCallback(Some(code), Some(state))
      == if userId != "" && environment != "" then Ok(Grant(code, userId, environment)) else Err(InvalidState)
  {
    var obj := map[StateJson.UserIdKey := userId, StateJson.EnvironmentKey := environment];
    assert StateJson.UserIdKey in obj && StateJson.EnvironmentKey in obj
        && obj[StateJson.UserIdKey] == userId && obj[StateJson.EnvironmentKey] == environment by {
      assert |StateJson.UserIdKey| != |StateJson.EnvironmentKey|;
    }
    DecodedStateChecked(code, state, obj);
  }
}

/**
 * The rest of oauth_callback (main.py): the token request to the
 * environment's token endpoint, storing the tokens, and the best-effort
 * registration of the user with the analysis backend, retried on server
 * errors and read timeouts, which never changes the answer.
 */
module Callback {
  import opened Wrappers
  import OAuth
  import StateJson
  import Strings

  /** The form the callback posts to the token endpoint. */
  datatype TokenRequest = TokenRequest(url: string, grantType: string, clientId: string, clientSecret: string,
                                       redirectUri: string, code: string)

  /**
   * The token endpoint's answer: its status and, when its body is a JSON
   * object, that object (None when response.json() fails or gives no object).
   */
  datatype TokenReply = TokenReply(status: int, body: Option<map<string, string>>)

  /** What the callback hands to the token store for a user. */
  datatype StoredTokens = StoredTokens(userId: string, accessToken: Option<string>, refreshToken: Option<string>,
                                       instanceUrl: Option<string>)

  /** One call of the new_user endpoint: the status it answered, a read timeout, or any other failure. */
  datatype Attempt = Status(code: int) | ReadTimeout | OtherError

  /** What the callback answers: an HTTP error with its reason, the redirect, or an unhandled exception (500). */
  datatype Reply = Failed(status: int, error: OAuth.CallbackError) | Redirect(url: string) | Crashed

  const MaxAttempts: nat := 3
  const ApiBase: string := "http://3.22.181.115"
  const ExcelTasksPath: string := "/excel-tasks"

  /** The outcomes after which the registration is tried again: a server error (5xx) or a read timeout. */
  predicate Retryable(a: Attempt) {
    (a.Status? && a.code >= 500) || a.ReadTimeout?
  }

  function NewUserUrl(userId: string): string {
    ApiBase + "/new_user/" + userId
  }

  function Get(obj: map<string, string>, key: string): Option<string> {
    if key in obj then Some(obj[key]) else None
  }

  /**
   * The token request for an accepted callback: the authorization code grant
   * at the token endpoint on the host that issued the code.
   */
  function TokenRequestFor(cfg: OAuth.Config, g: OAuth.Grant): (t: TokenRequest)
    ensures Strings.EndsWith(t.url, OAuth.TokenPath)
    ensures OAuth.HostOf(t.url, OAuth.TokenPath) == OAuth.HostOf(OAuth.SalesforceUrls(g.environment).authUrl, OAuth.AuthorizePath)
    ensures t.grantType == "authorization_code" && t.code == g.code
    ensures t.clientId == cfg.clientId && t.clientSecret == cfg.clientSecret && t.redirectUri == cfg.redirectUri
  {
    TokenRequest(OAuth.SalesforceUrls(g.environment).tokenUrl, "authorization_code", cfg.clientId,
                 cfg.clientSecret, cfg.redirectUri, g.code)
  }

  /**
   * A callback whose state carries a non-empty user and environment, as the
   * connect route's state does, is accepted, and its code is exchanged at
   * the token endpoint on the same host as the authorization page the
   * connect route sent the user to.
   */
  lemma TokenExchangedAtIssuingHost(cfg: OAuth.Config, code: string, state: string, userId: string, environment: string)
    requires code != "" && userId != "" && environment != ""
    requires OAuth.DecodeState(state) == Some(map[StateJson.UserIdKey := userId, StateJson.EnvironmentKey := environment])
    ensures OAuth.CheckCallback(Some(code), Some(state)) == Ok(OAuth.Grant(code, userId, environment))
    ensures var t := TokenRequestFor(cfg, OAuth.CheckCallback(Some(code), Some(state)).value);
      var issuer := OAuth.ConnectRedirect(cfg, environment, userId).url;
      && Strings.EndsWith(t.url, OAuth.TokenPath) && Strings.EndsWith(issuer, OAuth.AuthorizePath)
      && OAuth.HostOf(t.url, OAuth.TokenPath) == OAuth.HostOf(issuer, OAuth.AuthorizePath)
  {
    OAuth.ConnectedStateAccepted(code, state, environment, userId);
  }

  /**
   * The retry loop of the new_user registration for a user: respond(i) is
   * the outcome of attempt i, and calls are the URLs posted to. At most
   * three attempts; another one follows exactly a retryable outcome; a
   * one-second pause follows every retryable outcome except on the last
   * attempt.
   */
  method NewUserWithRetry(userId: string, respond: nat -> Attempt) returns (calls: seq<string>, sleeps: nat)
    ensures 1 <= |calls| <= MaxAttempts
    ensures forall i :: 0 <= i < |calls| ==> calls[i] == NewUserUrl(userId)
    ensures forall j :: 0 <= j < |calls| - 1 ==> Retryable(respond(j))
    ensures |calls| < MaxAttempts ==> !Retryable(respond(|calls| - 1))
    ensures sleeps == |calls| - 1
  {
    calls, sleeps := [], 0;
    var attempt := 0;
    while attempt < 3
      invariant attempt <= 3 && |calls| == attempt
      invariant forall i :: 0 <= i < |calls| ==> calls[i] == NewUserUrl(userId)
      invariant forall j :: 0 <= j < attempt ==> Retryable(respond(j))
      invariant sleeps == if attempt < 2 then attempt else 2
    {
      calls := calls + [NewUserUrl(userId)];
      var outcome := respond(attempt);
      match outcome
      case Status(code) =>
        if code == 200 {
          break;
        } else if code >= 500 {
          if attempt < 2 {
            sleeps := sleeps + 1;
          }
          attempt := attempt + 1;
          continue;
        } else {
          break;
        }
      case ReadTimeout =>
        if attempt < 2 {
          sleeps := sleeps + 1;
        }
        attempt := attempt + 1;
        continue;
      case OtherError =>
        break;
    }
  }

  /**
   * oauth_callback: check the code and the state, exchange the code for
   * tokens at the environment's token endpoint, store them, register the
   * user with the analysis backend and send the browser to the front end's
   * task page. exchange(t) is the token endpoint's answer to t, or None
   * when the POST raised (a connection error or a timeout), which nothing
   * catches. Besides the reply, the method gives the token requests it
   * made, what it stored, the new_user calls it made and the pauses between
   * them.
   */
  method OAuthCallback(cfg: OAuth.Config, code: Option<string>, state: Option<string>,
                       exchange: TokenRequest -> Option<TokenReply>, respond: nat -> Attempt)
    returns (reply: Reply, tokenRequests: seq<TokenRequest>, stored: seq<StoredTokens>,
             newUserCalls: seq<string>, sleeps: nat)
    ensures OAuth.CheckCallback(code, state).Err? ==>
      && reply == Failed(400, OAuth.CheckCallback(code, state).error)
      && tokenRequests == [] && stored == [] && newUserCalls == []
    ensures OAuth.CheckCallback(code, state).Ok? ==>
      var g := OAuth.CheckCallback(code, state).value;
      && tokenRequests == [TokenRequestFor(cfg, g)]
      && (exchange(TokenRequestFor(cfg, g)).None? ==> reply == Crashed && stored == [] && newUserCalls == [])
    ensures OAuth.CheckCallback(code, state).Ok? && exchange(TokenRequestFor(cfg, OAuth.CheckCallback(code, state).value)).Some? ==>
      var g := OAuth.CheckCallback(code, state).value;
      var answer := exchange(TokenRequestFor(cfg, g)).value;
      && (answer.status != 200 ==> reply == Failed(400, OAuth.TokenRequestFailed) && stored == [] && newUserCalls == [])
      && (answer.status == 200 && answer.body.None? ==> reply == Crashed && stored == [] && newUserCalls == [])
      && (answer.status == 200 && answer.body.Some? ==>
            && stored == [StoredTokens(g.userId, Get(answer.body.value, "access_token"),
                                       Get(answer.body.value, "refresh_token"), Get(answer.body.value, "instance_url"))]
            && reply == Redirect(cfg.frontendUrl + ExcelTasksPath)
            && 1 <= |newUserCalls| <= MaxAttempts
            && (forall i :: 0 <= i < |newUserCalls| ==> newUserCalls[i] == NewUserUrl(g.userId))
            && (forall j :: 0 <= j < |newUserCalls| - 1 ==> Retryable(respond(j)))
            && (|newUserCalls| < MaxAttempts ==> !Retryable(respond(|newUserCalls| - 1)))
            && sleeps == |newUserCalls| - 1)
    ensures newUserCalls == [] ==> sleeps == 0
    ensures reply.Failed? ==> reply.status == 400 && stored == []
  {
    tokenRequests, stored, newUserCalls, sleeps := [], [], [], 0;
    var check := OAuth.CheckCallback(code, state);
    if check.Err? {
      reply := Failed(400, check.error);
      return;
    }
    var g := check.value;
    var request := TokenRequestFor(cfg, g);
    tokenRequests := [request];
    var sent := exchange(request);
    if sent.None? {
      reply := Crashed;
      return;
    }
    var answer := sent.value;
    if answer.status != 200 {
      reply := Failed(400, OAuth.TokenRequestFailed);
      return;
    }
    if answer.body.None? {
      reply := Crashed;
      return;
    }
    var body := answer.body.value;
    stored := [StoredTokens(g.userId, Get(body, "access_token"), Get(body, "refresh_token"), Get(body, "instance_url"))];
    newUserCalls, sleeps := NewUserWithRetry(g.userId, respond);
    reply := Redirect(cfg.frontendUrl + ExcelTasksPath);
  }
}

/** The shared HTTP client (frontend/src/api/client.js): a request
    interceptor that adds the stored token, and a response interceptor that
    forgets the session on a 401. */
module ApiClient {
  import opened Values
  import opened Crypto
  import opened Headers
  import opened AuthMiddleware
  import opened Web

  /** The parts of an axios request config the interceptor touches. */
  class RequestConfig {
    var url: string
    var headers: map<string, string>

    constructor (url: string, headers: map<string, string>)
      ensures this.url == url && this.headers == headers
    {
      this.url := url;
      this.headers := headers;
    }
  }

  /** The request interceptor: a stored non-empty token becomes the
      Authorization header, and the same config object is returned. */
  method AttachToken(config: RequestConfig, browser: Browser) returns (result: RequestConfig)
    modifies config`headers
    ensures result == config
    ensures Filled(Item(browser.storage, "token")) ==>
              config.headers == old(config.headers)["Authorization" := BearerHeader(browser.storage["token"])]
    ensures !Filled(Item(browser.storage, "token")) ==> config.headers == old(config.headers)
  {
    var token := Item(browser.storage, "token");
    if Filled(token) {
      config.headers := config.headers["Authorization" := BearerHeader(token.value)];
    }
    result := config;
  }

  /** A response the server refused with 401. */
  predicate Unauthorized<T>(outcome: Settled<T>)
  {
    outcome.Rejected? && outcome.status == Some(401)
  }

  /** Both handlers of the response interceptor: a success passes through,
      an error is rejected again, and a 401 first drops the stored token and
      user and sends the browser to the login page. */
  method HandleResponse<T>(outcome: Settled<T>, browser: Browser) returns (result: Settled<T>)
    modifies browser
    ensures result == outcome
    ensures Unauthorized(outcome) ==>
              browser.storage == old(browser.storage) - {"token", "user"} && browser.location == "/login"
    ensures !Unauthorized(outcome) ==>
              browser.storage == old(browser.storage) && browser.location == old(browser.location)
  {
    if Unauthorized(outcome) {
      browser.storage := browser.storage - {"token"};
      browser.storage := browser.storage - {"user"};
      browser.location := "/login";
    }
    result := outcome;
  }

  /** Client and server together: with a stored token, a request built by
      the interceptor passes the server's `requireAuth` exactly when that
      token verifies, and the server then sees its payload; with none, the
      config's own Authorization header decides, and without one the answer
      is 401 "missing token". A stored token has no space, as every signed
      token does. */
  method SendThroughGate(config: RequestConfig, browser: Browser, kit: Toolkit, now: int)
    returns (outcome: Outcome, seen: Option<Claims>)
    requires Filled(Item(browser.storage, "token")) ==> ' ' !in browser.storage["token"]
    modifies config`headers
    ensures Filled(Item(browser.storage, "token")) ==>
              && (outcome == Next <==> kit.verify(browser.storage["token"], now).Some?)
              && (outcome == Next ==> seen == kit.verify(browser.storage["token"], now))
    ensures !Filled(Item(browser.storage, "token")) ==>
              var header := Item(old(config.headers), "Authorization");
              && (outcome == Next <==> Filled(header) && Decode(kit, header.value, now).Some?)
              && (outcome == Next ==> seen == Decode(kit, header.value, now))
              && (!Filled(header) ==> outcome == Reject(401, "missing token"))
  {
    var sent := AttachToken(config, browser);
    var req := new Request(Item(sent.headers, "Authorization"));
    if Filled(Item(browser.storage, "token")) {
      ClientHeaderReachesVerify(kit, browser.storage["token"], now);
    }
    outcome := RequireAuth(req, kit, now);
    seen := req.user;
  }
}

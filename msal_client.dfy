/** The boundary to the MSAL library (`UserAgentApplication`), which the provider
    holds as an untyped handle. Nothing of the library itself is modelled: each of
    the four operations the provider uses is an oracle whose answer for this call
    is fixed in advance by a `ClientScript`, and the client records every call it
    receives, with its request, in an append-only trace. */
module MsalClient {

  /** An error value as thrown by the library (or by the provider itself):
      only its `name` and `message` are looked at. */
  datatype Error = Error(name: string, message: string)

  /** The request object `{ scopes }` passed to the acquisition and login calls. */
  datatype TokenRequest = TokenRequest(scopes: seq<string>)

  /** How one awaited token call settles: a response carrying `accessToken`,
      or a rejection with an error. */
  datatype Outcome = Ok(accessToken: string) | Err(error: Error)

  /** How `loginPopup` settles: it resolves with nothing the provider uses, or rejects. */
  datatype LoginOutcome = LoggedIn | LoginFailed(error: Error)

  /** The answers the library gives to the calls of one `getAccessToken`. Each
      operation is called at most once per `getAccessToken`, so one answer each;
      between two `getAccessToken` calls the library's state (a session left by
      a login, a filled cache) may change, which `Client.Prepare` represents. */
  datatype ClientScript = ClientScript(
    hasAccount: bool,        // whether `getAccount()` returns a truthy account
    silent: Outcome,         // `acquireTokenSilent`
    popup: Outcome,          // `acquireTokenPopup`
    login: LoginOutcome      // `loginPopup`
  )

  /** One call made on the library, with the request it was given. */
  datatype Call =
    | GetAccount
    | AcquireTokenSilent(request: TokenRequest)
    | AcquireTokenPopup(request: TokenRequest)
    | LoginPopup(request: TokenRequest)
  {
    predicate CarriesRequest() {
      !GetAccount?
    }
  }

  /** The library instance as the provider sees it: it answers from its current
      script and appends each call to `calls`. */
  class Client {
    var script: ClientScript
    var calls: seq<Call>

    constructor (script: ClientScript)
      ensures this.script == script && calls == []
    {
      this.script := script;
      calls := [];
    }

    /** The library's state changes outside any `getAccessToken` call, so that
        the next call is answered from `next`; the calls made so far stay. */
    method Prepare(next: ClientScript)
      modifies this
      ensures script == next && calls == old(calls)
    {
      script := next;
    }

    method GetAccount() returns (present: bool)
      modifies this
      ensures present == script.hasAccount && script == old(script)
      ensures calls == old(calls) + [Call.GetAccount]
    {
      present := script.hasAccount;
      calls := calls + [Call.GetAccount];
    }

    method AcquireTokenSilent(request: TokenRequest) returns (o: Outcome)
      modifies this
      ensures o == script.silent && script == old(script)
      ensures calls == old(calls) + [Call.AcquireTokenSilent(request)]
    {
      o := script.silent;
      calls := calls + [Call.AcquireTokenSilent(request)];
    }

    method AcquireTokenPopup(request: TokenRequest) returns (o: Outcome)
      modifies this
      ensures o == script.popup && script == old(script)
      ensures calls == old(calls) + [Call.AcquireTokenPopup(request)]
    {
      o := script.popup;
      calls := calls + [Call.AcquireTokenPopup(request)];
    }

    method LoginPopup(request: TokenRequest) returns (o: LoginOutcome)
      modifies this
      ensures o == script.login && script == old(script)
      ensures calls == old(calls) + [Call.LoginPopup(request)]
    {
      o := script.login;
      calls := calls + [Call.LoginPopup(request)];
    }
  }
}

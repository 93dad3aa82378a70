/** `ImplicitMSALAuthenticationProvider`: supplies an access token for a set of
    permission scopes by asking the MSAL client silently first and falling back
    to a popup when the client says interaction is required, or by logging in
    through a popup when no account is signed in.

    `GetAccessTokenSpec` is what one `getAccessToken` call does, as a value: the
    way its promise settles together with the calls it makes on the client.
    The class method `GetAccessToken` is the imperative, statement-by-statement
    rendering of the source, proved to agree with it; the lemmas state what the
    source promises about it. */
module ImplicitMsalProvider {
  import opened MsalClient

  datatype Option<T> = None | Some(value: T)

  /** `MSALAuthenticationProviderOptions`: the provider's configured default
      scopes (always defined in this model). */
  datatype MsalOptions = MsalOptions(scopes: seq<string>)

  /** The per-call `AuthenticationProviderOptions`; its `scopes` may be undefined. */
  datatype AuthOptions = AuthOptions(scopes: Option<seq<string>>)

  /** How the promise returned by `getAccessToken` settles. `NoToken` is the
      async function running off its end: the promise resolves with `undefined`. */
  datatype Result = Token(accessToken: string) | Failure(error: Error) | NoToken

  /** One `getAccessToken` call: how it settles and the client calls it made, in order. */
  datatype Execution = Execution(result: Result, calls: seq<Call>)

  /** The error name the library uses to ask for user interaction. */
  const InteractionRequiredName: string := "InteractionRequiredAuthError"

  /** The error thrown when no usable scopes can be found. */
  const EmptyScopesError: Error := Error("EmptyScopes", "Scopes cannot be empty, Please provide a scopes")

  /** The per-call options carry a defined, non-empty scope list. */
  predicate Overrides(authOptions: Option<AuthOptions>) {
    authOptions.Some? && authOptions.value.scopes.Some? && |authOptions.value.scopes.value| > 0
  }

  /** The scopes `getAccessToken` works with, computed as the source does: take
      the per-call scopes if options were given, then fall back to the defaults
      when that is undefined or empty. */
  function EffectiveScopes(options: MsalOptions, authOptions: Option<AuthOptions>): (s: seq<string>)
    ensures Overrides(authOptions) ==> s == authOptions.value.scopes.value
    ensures !Overrides(authOptions) ==> s == options.scopes
    ensures |s| == 0 <==> !Overrides(authOptions) && |options.scopes| == 0
  {
    var scopes := if authOptions.Some? then authOptions.value.scopes else None;
    if scopes.None? || |scopes.value| == 0 then options.scopes else scopes.value
  }

  /** Every call in `calls` that carries a request carries `{ scopes }`. */
  predicate RequestsCarry(calls: seq<Call>, scopes: seq<string>) {
    forall c | c in calls && c.CarriesRequest() :: c.request == TokenRequest(scopes)
  }

  predicate NoPopup(calls: seq<Call>) {
    forall c | c in calls :: !c.AcquireTokenPopup?
  }

  predicate NoLogin(calls: seq<Call>) {
    forall c | c in calls :: !c.LoginPopup?
  }

  predicate NoSilent(calls: seq<Call>) {
    forall c | c in calls :: !c.AcquireTokenSilent?
  }

  /** Every `loginPopup` in `calls` comes before every `acquireTokenSilent`. */
  predicate LoginBeforeSilent(calls: seq<Call>) {
    forall i, j | 0 <= i < |calls| && 0 <= j < |calls| && calls[i].LoginPopup? && calls[j].AcquireTokenSilent? :: i < j
  }

  /** The acquisition chain, once the scopes are known to be non-empty: look up
      the account, then either silent-then-popup or login-then-silent. One
      request value `{ scopes }` is built and passed to every call. */
  function Acquire(scopes: seq<string>, script: ClientScript): (e: Execution)
    ensures 2 <= |e.calls| <= 3 && e.calls[0] == GetAccount
    ensures forall i | 1 <= i < |e.calls| :: e.calls[i].CarriesRequest()
    ensures RequestsCarry(e.calls, scopes)
  {
    var request := TokenRequest(scopes);
    if script.hasAccount then
      match script.silent
      case Ok(token) => Execution(Token(token), [GetAccount, AcquireTokenSilent(request)])
      case Err(error) =>
        if error.name == InteractionRequiredName then
          var calls := [GetAccount, AcquireTokenSilent(request), AcquireTokenPopup(request)];
          match script.popup
          case Ok(token) => Execution(Token(token), calls)
          case Err(popupError) => Execution(Failure(popupError), calls)
        else
          Execution(NoToken, [GetAccount, AcquireTokenSilent(request)])
    else
      match script.login
      case LoginFailed(error) => Execution(Failure(error), [GetAccount, LoginPopup(request)])
      case LoggedIn =>
        var calls := [GetAccount, LoginPopup(request), AcquireTokenSilent(request)];
        match script.silent
        case Ok(token) => Execution(Token(token), calls)
        case Err(error) => Execution(Failure(error), calls)
  }

  /** One `getAccessToken(authOptions)` call on a provider configured with
      `options`, against a client that answers from `script`. */
  function GetAccessTokenSpec(options: MsalOptions, authOptions: Option<AuthOptions>, script: ClientScript): (e: Execution)
    ensures e.calls == [] <==> |EffectiveScopes(options, authOptions)| == 0
    ensures e.calls == [] ==> e.result == Failure(EmptyScopesError)
    ensures RequestsCarry(e.calls, EffectiveScopes(options, authOptions))
  {
    var scopes := EffectiveScopes(options, authOptions);
    if |scopes| == 0 then Execution(Failure(EmptyScopesError), []) else Acquire(scopes, script)
  }

  /** The provider object: it keeps the client and the options it was built
      with and never changes them. The options are held as a value, not as a
      reference the caller could still change. */
  class ImplicitMsalAuthenticationProvider {
    var options: MsalOptions
    var msalInstance: Client

    constructor (msalInstance: Client, options: MsalOptions)
      ensures this.options == options && this.msalInstance == msalInstance
    {
      this.options := options;
      this.msalInstance := msalInstance;
    }

    /** Resolves the scopes, rejects empty ones before touching the client,
        then runs the silent / popup / login chain on `msalInstance`. */
    method GetAccessToken(authOptions: Option<AuthOptions>) returns (r: Result)
      modifies msalInstance
      ensures msalInstance.script == old(msalInstance.script)
      ensures r == GetAccessTokenSpec(options, authOptions, old(msalInstance.script)).result
      ensures msalInstance.calls == old(msalInstance.calls) + GetAccessTokenSpec(options, authOptions, old(msalInstance.script)).calls
    {
      var scopes: Option<seq<string>> := None;
      if authOptions.Some? {
        scopes := authOptions.value.scopes;
      }
      if scopes.None? || |scopes.value| == 0 {
        scopes := Some(options.scopes);
      }
      if |scopes.value| == 0 {
        return Failure(EmptyScopesError);
      }

      var hasAccount := msalInstance.GetAccount();
      if hasAccount {
        var tokenRequest := TokenRequest(scopes.value);
        var silent := msalInstance.AcquireTokenSilent(tokenRequest);
        match silent {
          case Ok(token) =>
            return Token(token);
          case Err(error) =>
            if error.name == InteractionRequiredName {
              var popup := msalInstance.AcquireTokenPopup(tokenRequest);
              match popup {
                case Ok(token) => return Token(token);
                case Err(popupError) => return Failure(popupError);
              }
            }
        }
        r := NoToken;
      } else {
        var tokenRequest := TokenRequest(scopes.value);
        var login := msalInstance.LoginPopup(tokenRequest);
        if login.LoginFailed? {
          return Failure(login.error);
        }
        var silent := msalInstance.AcquireTokenSilent(tokenRequest);
        match silent {
          case Ok(token) => return Token(token);
          case Err(error) => return Failure(error);
        }
      }
    }
  }

  // Properties of one getAccessToken call

  /** Empty scopes: rejected with `EmptyScopes`, and the client is never called,
      not even `getAccount`. */
  lemma EmptyScopesRejectedBeforeAnyCall(options: MsalOptions, authOptions: Option<AuthOptions>, script: ClientScript)
    requires |EffectiveScopes(options, authOptions)| == 0
    ensures GetAccessTokenSpec(options, authOptions, script) == Execution(Failure(EmptyScopesError), [])
  {
  }

  /** With usable scopes the first call is always `getAccount`, and every
      request handed to the client is one and the same `{ scopes }`. */
  lemma OneRequestForAllCalls(options: MsalOptions, authOptions: Option<AuthOptions>, script: ClientScript)
    requires |EffectiveScopes(options, authOptions)| > 0
    ensures var e := GetAccessTokenSpec(options, authOptions, script);
      e.calls != [] && e.calls[0] == GetAccount &&
      forall i, j | 1 <= i < |e.calls| && 1 <= j < |e.calls| ::
        e.calls[i].request == e.calls[j].request == TokenRequest(EffectiveScopes(options, authOptions))
  {
  }

  /** Account present, silent acquisition succeeds: its token is returned and
      no interactive call is made. */
  lemma SilentSuccessIsFinal(scopes: seq<string>, script: ClientScript, token: string)
    requires script.hasAccount && script.silent == Ok(token)
    ensures Acquire(scopes, script).result == Token(token)
    ensures Acquire(scopes, script).calls == [GetAccount, AcquireTokenSilent(TokenRequest(scopes))]
    ensures NoPopup(Acquire(scopes, script).calls) && NoLogin(Acquire(scopes, script).calls)
  {
  }

  /** Account present, silent acquisition fails with `InteractionRequiredAuthError`:
      the popup comes next, with the same request, and its outcome is the result
      unchanged. */
  lemma InteractionRequiredFallsBackToPopup(scopes: seq<string>, script: ClientScript)
    requires script.hasAccount && script.silent.Err? && script.silent.error.name == InteractionRequiredName
    ensures var e := Acquire(scopes, script);
      e.calls == [GetAccount, AcquireTokenSilent(TokenRequest(scopes)), AcquireTokenPopup(TokenRequest(scopes))] &&
      NoLogin(e.calls) &&
      e.result == (match script.popup case Ok(t) => Token(t) case Err(err) => Failure(err))
  {
  }

  /** Account present, silent acquisition fails with any other error: no popup
      is attempted, and the call settles with neither a token nor an error. */
  lemma OtherSilentErrorIsSwallowed(scopes: seq<string>, script: ClientScript)
    requires script.hasAccount && script.silent.Err? && script.silent.error.name != InteractionRequiredName
    ensures Acquire(scopes, script).result == NoToken
    ensures Acquire(scopes, script).calls == [GetAccount, AcquireTokenSilent(TokenRequest(scopes))]
    ensures NoPopup(Acquire(scopes, script).calls) && NoLogin(Acquire(scopes, script).calls)
  {
  }

  /** The swallowing case is exactly the one where the promise resolves with
      `undefined`. */
  lemma NoTokenExactlyWhenSwallowed(scopes: seq<string>, script: ClientScript)
    ensures Acquire(scopes, script).result == NoToken <==>
      script.hasAccount && script.silent.Err? && script.silent.error.name != InteractionRequiredName
  {
  }

  /** No account: `loginPopup` runs before any silent acquisition; if it fails,
      its error is the result and silent acquisition is never attempted. */
  lemma NoAccountLogsInFirst(scopes: seq<string>, script: ClientScript)
    requires !script.hasAccount
    ensures var e := Acquire(scopes, script);
      LoginPopup(TokenRequest(scopes)) in e.calls && LoginBeforeSilent(e.calls) && NoPopup(e.calls)
    ensures script.login.LoginFailed? ==>
      Acquire(scopes, script).result == Failure(script.login.error) && NoSilent(Acquire(scopes, script).calls) &&
      Acquire(scopes, script).calls == [GetAccount, LoginPopup(TokenRequest(scopes))]
  {
  }

  /** No account, login succeeds: the following silent acquisition decides the
      result, token or error unchanged, and no popup acquisition is made. */
  lemma LoginThenSilentDecides(scopes: seq<string>, script: ClientScript)
    requires !script.hasAccount && script.login == LoggedIn
    ensures var e := Acquire(scopes, script);
      e.calls == [GetAccount, LoginPopup(TokenRequest(scopes)), AcquireTokenSilent(TokenRequest(scopes))] &&
      NoPopup(e.calls) &&
      e.result == (match script.silent case Ok(t) => Token(t) case Err(err) => Failure(err))
  {
  }

  /** A token is returned only if the client produced it, from the silent or
      the popup acquisition: the provider never makes one up. */
  lemma TokenComesFromClient(options: MsalOptions, authOptions: Option<AuthOptions>, script: ClientScript)
    ensures var e := GetAccessTokenSpec(options, authOptions, script);
      e.result.Token? ==>
        (script.silent == Ok(e.result.accessToken) && AcquireTokenSilent(TokenRequest(EffectiveScopes(options, authOptions))) in e.calls) ||
        (script.popup == Ok(e.result.accessToken) && AcquireTokenPopup(TokenRequest(EffectiveScopes(options, authOptions))) in e.calls)
  {
  }
}

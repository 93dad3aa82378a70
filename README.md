# ImplicitMSALAuthenticationProvider, modelled in Dafny

The Microsoft Graph JavaScript client can obtain bearer tokens in the browser
through `ImplicitMSALAuthenticationProvider`. This class wraps an MSAL
`UserAgentApplication` instance, which runs the implicit OAuth2 flow. Its one
operation, `getAccessToken`, works in three stages:

- It resolves the scopes: a non-empty per-call override wins over the
  configured defaults.
- It rejects empty scopes with an `EmptyScopes` error before it calls the
  client at all.
- It then chooses between two paths:
  - An account is signed in: silent acquisition first, then a popup, but only
    when the silent failure is named `InteractionRequiredAuthError`.
  - No account is signed in: `loginPopup`, then silent acquisition.

The model has three modules:

- `MsalClient` is the boundary to the MSAL library. The library is untyped
  and not modelled. Each of its four calls (`getAccount`,
  `acquireTokenSilent`, `acquireTokenPopup`, `loginPopup`) answers from the
  client's current `ClientScript`, which fixes in advance how that call
  settles. Between two `getAccessToken` calls the environment may replace the
  script (`Client.Prepare`), for example to reflect the account a login
  left behind. The `Client` class appends every call it receives, with its
  request, to a trace.
- `ImplicitMsalProvider` holds the provider.
  - `GetAccessTokenSpec` describes one call as a value: how the returned
    promise settles (`Token`, `Failure`, or `NoToken` for a resolution with
    `undefined`) and the client calls made, in order.
  - The class `ImplicitMsalAuthenticationProvider` has the source's two
    fields. Its method `GetAccessToken` follows the source statement by
    statement. It is proved to return the spec's result and to append exactly
    the spec's calls to the client's trace.
  - Lemmas prove what the source promises about each branch.
- `AwaitSteps` is a second definition of the same behaviour: the async
  function as a transition system with one step per `await`. It starts from
  the scopes `EffectiveScopes` resolves, so scope resolution (lines 61-68) is
  shared with the spec. The rest, the empty-scopes check and the acquisition
  chain (lines 69-104), is defined independently. It is proved to settle
  within four steps, with the same result and the same calls as
  `GetAccessTokenSpec`.

One case does not keep the doc comment's promise (line 58: "The promise that
resolves to an access token"). An account is present and silent acquisition
fails with some error other than `InteractionRequiredAuthError`. The `catch`
block at lines 83-92 then ends, control runs off the end of the async
function, and the promise resolves with `undefined`. The model keeps this
behaviour as `Result.NoToken` (see `OtherSilentErrorIsSwallowed` and
`NoTokenExactlyWhenSwallowed`).

## Model

| member | source | states |
|---|---|---|
| `ImplicitMsalProvider.EffectiveScopes` | src/browser/ImplicitMSALAuthenticationProvider.ts:61-68 | the per-call scopes are used exactly when options are given with defined, non-empty scopes; otherwise the configured defaults are used; the result is empty iff there is no such override and the defaults are empty |
| `ImplicitMsalProvider.Acquire` | src/browser/ImplicitMSALAuthenticationProvider.ts:76-104 | once the scopes are usable, the first client call is `getAccount`, two or three calls are made in all, and every later call carries the one request `{ scopes }` |
| `ImplicitMsalProvider.GetAccessTokenSpec` | src/browser/ImplicitMSALAuthenticationProvider.ts:60-105 | the client is called at all iff the resolved scopes are non-empty; with no calls the result is the `EmptyScopes` error; every request carries the resolved scopes |
| `ImplicitMsalProvider.ImplicitMsalAuthenticationProvider.constructor` | src/browser/ImplicitMSALAuthenticationProvider.ts:48-51 | the provider stores the client and the options it is given, as they are |
| `ImplicitMsalProvider.ImplicitMsalAuthenticationProvider.GetAccessToken` | src/browser/ImplicitMSALAuthenticationProvider.ts:60-105 | the method's result is the spec's result for the client's script at the start of the call, the client's trace grows by exactly the spec's calls, in order, and the script is unchanged; the provider's own fields are not modified |
| `ImplicitMsalProvider.EmptyScopesRejectedBeforeAnyCall` | src/browser/ImplicitMSALAuthenticationProvider.ts:69-74 | empty resolved scopes give the error named `EmptyScopes` with message "Scopes cannot be empty, Please provide a scopes", and no client call is made, not even `getAccount` |
| `ImplicitMsalProvider.OneRequestForAllCalls` | src/browser/ImplicitMSALAuthenticationProvider.ts:76-99 | with usable scopes, `getAccount` comes first, and every request passed to silent, popup or login acquisition is the same `{ scopes }` holding the resolved scopes |
| `ImplicitMsalProvider.SilentSuccessIsFinal` | src/browser/ImplicitMSALAuthenticationProvider.ts:76-82 | an account is present and silent acquisition succeeds: its `accessToken` is returned, the calls are exactly `getAccount` then one `acquireTokenSilent` with the request, and neither `acquireTokenPopup` nor `loginPopup` is called |
| `ImplicitMsalProvider.InteractionRequiredFallsBackToPopup` | src/browser/ImplicitMSALAuthenticationProvider.ts:83-90 | an account is present and silent acquisition fails with `InteractionRequiredAuthError`: the calls are exactly `getAccount`, `acquireTokenSilent`, then `acquireTokenPopup`, both with the same request; no login happens; the popup's token or its error, unchanged, is the result |
| `ImplicitMsalProvider.OtherSilentErrorIsSwallowed` | src/browser/ImplicitMSALAuthenticationProvider.ts:83-105 | an account is present and silent acquisition fails with any other error: the calls are exactly `getAccount` then one `acquireTokenSilent`, no popup or login is attempted, and the promise resolves with no token and no error |
| `ImplicitMsalProvider.NoTokenExactlyWhenSwallowed` | src/browser/ImplicitMSALAuthenticationProvider.ts:76-105 | the promise resolves with `undefined` if and only if an account is present and silent acquisition fails with an error not named `InteractionRequiredAuthError` |
| `ImplicitMsalProvider.NoAccountLogsInFirst` | src/browser/ImplicitMSALAuthenticationProvider.ts:93-103 | with no account, `loginPopup` with the request is called, every login precedes every silent acquisition, and no popup acquisition is made; a failed login is the result, the calls are then exactly `getAccount` and `loginPopup`, and silent acquisition is never called |
| `ImplicitMsalProvider.LoginThenSilentDecides` | src/browser/ImplicitMSALAuthenticationProvider.ts:98-102 | with no account and a successful login, the calls are exactly `getAccount`, `loginPopup`, then `acquireTokenSilent`, both with the same request; no popup acquisition is made; the silent token or its error, unchanged, is the result |
| `ImplicitMsalProvider.TokenComesFromClient` | src/browser/ImplicitMSALAuthenticationProvider.ts:76-104 | a returned token is always the `accessToken` of a silent or popup response that the call actually requested with the resolved scopes |
| `MsalClient.Client.GetAccount` | src/browser/ImplicitMSALAuthenticationProvider.ts:76 | the account lookup answers as scripted, is recorded in the trace, and leaves the script unchanged |
| `MsalClient.Client.AcquireTokenSilent` | src/browser/ImplicitMSALAuthenticationProvider.ts:81 | silent acquisition settles as scripted, is recorded with its request, and leaves the script unchanged |
| `MsalClient.Client.AcquireTokenPopup` | src/browser/ImplicitMSALAuthenticationProvider.ts:86 | popup acquisition settles as scripted, is recorded with its request, and leaves the script unchanged |
| `MsalClient.Client.LoginPopup` | src/browser/ImplicitMSALAuthenticationProvider.ts:98 | popup login settles as scripted, is recorded with its request, and leaves the script unchanged |
| `AwaitSteps.Step` | src/browser/ImplicitMSALAuthenticationProvider.ts:60-105 | running up to the next `await` makes at most one client call, carrying the resolved scopes, keeps the local `scopes`, and strictly reduces the steps left before the promise settles |
| `AwaitSteps.RunSettles` | src/browser/ImplicitMSALAuthenticationProvider.ts:60-105 | from any point, the function settles within the bound of remaining steps (at most four from entry), with no more client calls than that; more fuel changes nothing |
| `AwaitSteps.RunAgreesWithSpec` | src/browser/ImplicitMSALAuthenticationProvider.ts:60-105 | run await by await from the entry point, the function settles with exactly `GetAccessTokenSpec`'s result, after exactly its client calls in its order |

## Left out

- The MSAL library itself is not modelled: sessions, the token cache, account storage, the popup UI and token contents. The library is an untyped foreign dependency (`declare const Msal: any`). It appears only as one scripted outcome per call.
- How the library's state carries over between `getAccessToken` calls is not modelled. For example, a successful `loginPopup` (line 98) leaves a signed-in account, so the next call takes the silent branch. The client's script does not change by itself. The environment replaces it with `Client.Prepare`, and no relation between consecutive scripts is promised.
- The constructor (lines 48-51) keeps a reference to the caller's options object, so later changes the caller makes to that object reach the provider. `MsalOptions` is a value, so the model does not capture that aliasing: the provider's default scopes stay as they were at construction.
- Promise and `async` scheduling and concurrent `getAccessToken` calls are not modelled. Each call is a strictly sequential chain, since each `await` completes before the next step starts. A client call that never settles (a hung promise) is not modelled either.
- When the configured default `scopes` is `undefined`, the source fails with a `TypeError` at `scopes.length`. The model's `MsalOptions` always holds a defined sequence.
- Per-call options that are `null` (not `undefined`) make `options.scopes` throw a `TypeError`. This is not modelled: absent options are `None`.
- The truthiness of `getAccount()`'s result is reduced to a boolean. An account's contents are never read.
- The option and interface types imported from `../IAuthenticationProvider`, `../IAuthenticationProviderOptions` and `../MSALAuthenticationProviderOptions` are not part of this model. Options are modelled only by their `scopes` field.
- The library's error values are reduced to their `name` and `message`. The provider reads only the `name` and passes the value on unchanged.

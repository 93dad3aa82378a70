/** `getAccessToken` as the async function actually runs it: a sequence of
    steps, each ending at an `await` (or at the scope check), where the next
    step starts only once the awaited client call has settled. This is a second,
    independent definition of the same behaviour; `RunAgreesWithSpec` proves that
    running it to completion gives exactly `GetAccessTokenSpec`. */
module AwaitSteps {
  import opened MsalClient
  import opened ImplicitMsalProvider

  /** Where the async function is: before the scope check, at the account
      lookup, suspended on one of the four awaits, or settled. */
  datatype Point =
    | Entry
    | AccountCheck
    | AwaitSilent
    | AwaitPopup
    | AwaitLogin
    | AwaitSilentAfterLogin
    | Settled(result: Result)

  /** The function's state: its position and the resolved local `scopes`. */
  datatype State = State(point: Point, scopes: seq<string>)

  /** One step: the state after it and the client calls it made. */
  datatype Transition = Transition(next: State, emitted: seq<Call>)

  /** How many steps at most are left before the function settles. */
  function Remaining(p: Point): nat {
    match p
    case Entry => 4
    case AccountCheck => 3
    case AwaitSilent => 2
    case AwaitLogin => 2
    case AwaitPopup => 1
    case AwaitSilentAfterLogin => 1
    case Settled(_) => 0
  }

  /** The state right after scope resolution. */
  function Initial(options: MsalOptions, authOptions: Option<AuthOptions>): State {
    State(Entry, EffectiveScopes(options, authOptions))
  }

  /** Runs the function from `st` up to its next suspension point. Every step
      makes at most one client call, keeps the scopes, and brings the function
      closer to settling. */
  function Step(st: State, script: ClientScript): (t: Transition)
    requires !st.point.Settled?
    ensures |t.emitted| <= 1 && t.next.scopes == st.scopes
    ensures Remaining(t.next.point) < Remaining(st.point)
    ensures RequestsCarry(t.emitted, st.scopes)
  {
    var request := TokenRequest(st.scopes);
    match st.point
    case Entry =>
      if |st.scopes| == 0 then Transition(st.(point := Settled(Failure(EmptyScopesError))), [])
      else Transition(st.(point := AccountCheck), [])
    case AccountCheck =>
      Transition(st.(point := if script.hasAccount then AwaitSilent else AwaitLogin), [GetAccount])
    case AwaitSilent =>
      var next :=
        match script.silent
        case Ok(token) => Settled(Token(token))
        case Err(error) => if error.name == InteractionRequiredName then AwaitPopup else Settled(NoToken);
      Transition(st.(point := next), [AcquireTokenSilent(request)])
    case AwaitPopup =>
      var next :=
        match script.popup
        case Ok(token) => Settled(Token(token))
        case Err(error) => Settled(Failure(error));
      Transition(st.(point := next), [AcquireTokenPopup(request)])
    case AwaitLogin =>
      var next :=
        match script.login
        case LoggedIn => AwaitSilentAfterLogin
        case LoginFailed(error) => Settled(Failure(error));
      Transition(st.(point := next), [LoginPopup(request)])
    case AwaitSilentAfterLogin =>
      var next :=
        match script.silent
        case Ok(token) => Settled(Token(token))
        case Err(error) => Settled(Failure(error));
      Transition(st.(point := next), [AcquireTokenSilent(request)])
  }

  /** Runs at most `fuel` steps from `st`: where the function stops and the
      client calls made on the way, in order. */
  function Run(st: State, script: ClientScript, fuel: nat): (t: Transition)
    decreases fuel
  {
    if st.point.Settled? || fuel == 0 then Transition(st, [])
    else
      var first := Step(st, script);
      var rest := Run(first.next, script, fuel - 1);
      Transition(rest.next, first.emitted + rest.emitted)
  }

  /** Enough fuel always settles the function, and extra fuel changes nothing. */
  lemma {:induction false} RunSettles(st: State, script: ClientScript, fuel: nat)
    requires fuel >= Remaining(st.point)
    ensures Run(st, script, fuel).next.point.Settled?
    ensures Run(st, script, fuel) == Run(st, script, Remaining(st.point))
    ensures |Run(st, script, fuel).emitted| <= Remaining(st.point)
    decreases fuel
  {
    if !st.point.Settled? {
      var first := Step(st, script);
      RunSettles(first.next, script, fuel - 1);
      RunSettles(first.next, script, Remaining(st.point) - 1);
    }
  }

  /** Running the steps from the entry point, with enough fuel, settles the
      promise exactly as `GetAccessTokenSpec` says, after exactly its calls. */
  lemma {:induction false} RunAgreesWithSpec(options: MsalOptions, authOptions: Option<AuthOptions>, script: ClientScript, fuel: nat)
    requires fuel >= Remaining(Entry)
    ensures var e := GetAccessTokenSpec(options, authOptions, script);
      Run(Initial(options, authOptions), script, fuel) == Transition(State(Settled(e.result), EffectiveScopes(options, authOptions)), e.calls)
  {
    var st := Initial(options, authOptions);
    RunSettles(st, script, fuel);
    var s1 := Step(st, script).next;
    if s1.point.Settled? {
      return;
    }
    var s2 := Step(s1, script).next;
    if s2.point.Settled? {
      return;
    }
    var s3 := Step(s2, script).next;
    if s3.point.Settled? {
      return;
    }
    var s4 := Step(s3, script).next;
    assert s4.point.Settled?;
  }
}

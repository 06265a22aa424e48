/**
 * The view state of the server-confirmation screen: which title and which
 * message are shown for the homeserver the user picked and the flow (log in or
 * register) being attempted.
 */
module ServerConfirmation {
  import opened Wrappers
  import opened Localization

  /** The flow being attempted on the selected homeserver. */
  datatype AuthenticationFlow = Login | Register

  /** The OIDC presentation anchor; only its identity matters here. */
  datatype Window = Window(id: nat)

  datatype ServerConfirmationScreenViewState = ServerConfirmationScreenViewState(
    homeserverAddress: string,
    authenticationFlow: AuthenticationFlow,
    window: Option<Window>)

  /** The screen's title: the flow's title template applied to the address. */
  function Title(state: ServerConfirmationScreenViewState): (r: Text)
    ensures r.Formatted? && r.argument == state.homeserverAddress
    ensures r.template == ScreenServerConfirmationTitleLogin <==> state.authenticationFlow == Login
    ensures r.template == ScreenServerConfirmationTitleRegister <==> state.authenticationFlow == Register
  {
    match state.authenticationFlow
    case Login => Formatted(ScreenServerConfirmationTitleLogin, state.homeserverAddress)
    case Register => Formatted(ScreenServerConfirmationTitleRegister, state.homeserverAddress)
  }

  /**
   * The message shown beneath the title. Each of the four possible messages is
   * characterised by exactly the inputs that produce it, so the postconditions
   * also say that no other input produces it.
   */
  function Message(state: ServerConfirmationScreenViewState): (r: Text)
    ensures r == Localized(ScreenServerConfirmationMessageRegister)
        <==> state.authenticationFlow == Register
    ensures r == Localized(ScreenServerConfirmationMessageLoginMatrixDotOrg)
        <==> state.authenticationFlow == Login && state.homeserverAddress == "matrix.org"
    ensures r == Localized(ScreenServerConfirmationMessageLoginElementDotIo)
        <==> state.authenticationFlow == Login && state.homeserverAddress == "element.io"
    ensures r.IsEmptyLiteral()
        <==> state.authenticationFlow == Login
             && state.homeserverAddress != "matrix.org" && state.homeserverAddress != "element.io"
  {
    match state.authenticationFlow
    case Login =>
      if state.homeserverAddress == "matrix.org" then
        Localized(ScreenServerConfirmationMessageLoginMatrixDotOrg)
      else if state.homeserverAddress == "element.io" then
        Localized(ScreenServerConfirmationMessageLoginElementDotIo)
      else
        Literal("")
    case Register => Localized(ScreenServerConfirmationMessageRegister)
  }

  /** Whatever the address, a login message is one of exactly three outcomes. */
  lemma LoginMessageIsOneOfThree(state: ServerConfirmationScreenViewState)
    requires state.authenticationFlow == Login
    ensures Message(state) in {
              Localized(ScreenServerConfirmationMessageLoginMatrixDotOrg),
              Localized(ScreenServerConfirmationMessageLoginElementDotIo),
              Literal("")}
    ensures !Message(state).IsEmptyLiteral() ==> state.homeserverAddress in {"matrix.org", "element.io"}
  {
  }

  /** Matching is exact: a differently capitalised address gets no message. */
  lemma AddressMatchingIsCaseSensitive(window: Option<Window>)
    ensures Message(ServerConfirmationScreenViewState("Matrix.org", Login, window)).IsEmptyLiteral()
    ensures Message(ServerConfirmationScreenViewState("Element.io", Login, window)).IsEmptyLiteral()
    ensures Message(ServerConfirmationScreenViewState(" matrix.org", Login, window)).IsEmptyLiteral()
  {
  }

  /** Title and message are a function of the address and the flow alone. */
  lemma WindowNeverMatters(s1: ServerConfirmationScreenViewState, s2: ServerConfirmationScreenViewState)
    requires s1.homeserverAddress == s2.homeserverAddress
    requires s1.authenticationFlow == s2.authenticationFlow
    ensures Title(s1) == Title(s2) && Message(s1) == Message(s2)
  {
  }

  /** Two states with different flows never share a title. */
  lemma TitleTellsFlowsApart(s1: ServerConfirmationScreenViewState, s2: ServerConfirmationScreenViewState)
    requires s1.authenticationFlow != s2.authenticationFlow
    ensures Title(s1) != Title(s2)
  {
  }
}

/**
 * The waitlist screen's coordinator: it forwards the view model's actions to
 * its own listeners, and whenever the app returns to the foreground it retries
 * the login to see whether the waitlist has opened up, showing a modal
 * "refreshing" indicator while it does so.
 *
 * The foreground notification is an explicit call, `WillEnterForeground`, and
 * the asynchronous login is one synchronous step whose result is an input.
 */
module Waitlist {
  import opened Wrappers
  import opened Localization
  import opened UserIndicators

  datatype UserSession = UserSession(userID: string)

  /** The homeserver a login is made against; only its address is modelled. */
  datatype LoginHomeserver = LoginHomeserver(address: string)

  datatype WaitlistScreenCredentials = WaitlistScreenCredentials(
    username: string,
    password: string,
    initialDeviceName: Option<string>,
    deviceID: Option<string>,
    homeserver: LoginHomeserver)

  /** The failures `login` can report; the cases the coordinator does not single out are `OtherFailure`. */
  datatype AuthenticationServiceError = IsOnWaitlist | InvalidCredentials | OtherFailure(reason: string)

  datatype LoginResult = Success(userSession: UserSession) | Failure(error: AuthenticationServiceError)

  /** What the waitlist screen's view model asks for. */
  datatype WaitlistScreenViewModelAction = ViewModelCancel | Continue(userSession: UserSession)

  /** What the coordinator tells its owner. */
  datatype WaitlistScreenCoordinatorAction = SignedIn(userSession: UserSession) | Cancel

  /** The routing `start` installs: cancel goes to cancel, continue goes to signed in with the same session. */
  function Route(action: WaitlistScreenViewModelAction): (r: WaitlistScreenCoordinatorAction)
    ensures r.Cancel? <==> action.ViewModelCancel?
    ensures r.SignedIn? <==> action.Continue?
    ensures r.SignedIn? ==> r.userSession == action.userSession
  {
    match action
    case ViewModelCancel => Cancel
    case Continue(userSession) => SignedIn(userSession)
  }

  /** `n` copies of `x`: what `n` identical subscribers send for one event. */
  function Repeat<X>(x: X, n: nat): (r: seq<X>)
    ensures |r| == n
    ensures forall i :: 0 <= i < |r| ==> r[i] == x
  {
    if n == 0 then [] else Repeat(x, n - 1) + [x]
  }

  const RefreshIndicatorID: string := "WaitlistCoordinatorRefresh"
  const FailureIndicatorID: string := "WaitlistCoordinatorFailure"

  /** The persistent modal shown while a refresh is in flight. */
  const RefreshIndicator: UserIndicator :=
    UserIndicator(RefreshIndicatorID, Modal, Localized(CommonRefreshing), true, None)

  /** The toast shown when a refresh fails for an unexpected reason. */
  const FailureIndicator: UserIndicator :=
    UserIndicator(FailureIndicatorID, Toast, Localized(ErrorUnknown), false, Some("xmark"))

  lemma IndicatorIDsDiffer()
    ensures RefreshIndicatorID != FailureIndicatorID
  {
  }

  /**
   * One call to `login`, with what the indicator controller showed at that moment:
   * the ids then active and the number of controller calls made before it.
   */
  datatype LoginRequest = LoginRequest(
    credentials: WaitlistScreenCredentials,
    shownIndicators: set<string>,
    controllerCallsBefore: nat)

  /**
   * Everything a refresh can change, as a value: the actions sent so far, whether
   * the foreground subscription is still held, the session handed to the view
   * model, the login requests made, and the indicator controller's state.
   */
  datatype Snapshot = Snapshot(
    actions: seq<WaitlistScreenCoordinatorAction>,
    refreshSubscribed: bool,
    viewModelSession: Option<UserSession>,
    loginRequests: seq<LoginRequest>,
    indicators: IndicatorState)

  /** The effect of one `refresh` whose login (if any) returns `loginResult`. */
  function RefreshResult(s: Snapshot, credentials: WaitlistScreenCredentials,
                         serviceHomeserver: LoginHomeserver, loginResult: LoginResult): Snapshot
  {
    if credentials.homeserver != serviceHomeserver then
      s.(actions := s.actions + [Cancel])
    else
      var shown := s.(indicators := Submit(s.indicators, RefreshIndicator));
      var requested := shown.(loginRequests := shown.loginRequests
                                 + [LoginRequest(credentials, shown.indicators.active, |shown.indicators.log|)]);
      var hidden := requested.(indicators := Retract(requested.indicators, RefreshIndicatorID));
      match loginResult
      case Success(userSession) => hidden.(refreshSubscribed := false, viewModelSession := Some(userSession))
      case Failure(IsOnWaitlist) => hidden
      case Failure(InvalidCredentials) => hidden.(actions := hidden.actions + [Cancel])
      case Failure(OtherFailure(_)) => hidden.(indicators := Submit(hidden.indicators, FailureIndicator))
  }

  /** One foreground notification: it triggers a refresh only while the subscription is held. */
  datatype ForegroundEvent = ForegroundEvent(serviceHomeserver: LoginHomeserver, loginResult: LoginResult)

  function OnForeground(s: Snapshot, credentials: WaitlistScreenCredentials, e: ForegroundEvent): Snapshot {
    if s.refreshSubscribed then RefreshResult(s, credentials, e.serviceHomeserver, e.loginResult) else s
  }

  function Run(s: Snapshot, credentials: WaitlistScreenCredentials, events: seq<ForegroundEvent>): Snapshot
    decreases |events|
  {
    if events == [] then s else Run(OnForeground(s, credentials, events[0]), credentials, events[1..])
  }

  // ---- One refresh -------------------------------------------------------

  /** A changed homeserver configuration cancels, with no indicator and no login. */
  lemma RefreshOnHomeserverChange(s: Snapshot, credentials: WaitlistScreenCredentials,
                                  serviceHomeserver: LoginHomeserver, loginResult: LoginResult)
    requires credentials.homeserver != serviceHomeserver
    ensures RefreshResult(s, credentials, serviceHomeserver, loginResult)
            == s.(actions := s.actions + [Cancel])
  {
  }

  /**
   * With the same homeserver, one login is requested with the stored credentials.
   * The refresh indicator is submitted just before that request, so it is shown
   * while the login runs, and it is retracted by the next controller call, so it
   * is not active afterwards, whatever the outcome.
   */
  lemma RefreshBracketsLogin(s: Snapshot, credentials: WaitlistScreenCredentials,
                             serviceHomeserver: LoginHomeserver, loginResult: LoginResult)
    requires credentials.homeserver == serviceHomeserver
    ensures var r := RefreshResult(s, credentials, serviceHomeserver, loginResult);
            |r.loginRequests| == |s.loginRequests| + 1
            && r.loginRequests[..|s.loginRequests|] == s.loginRequests
            && r.loginRequests[|s.loginRequests|].credentials == credentials
            && RefreshIndicatorID in r.loginRequests[|s.loginRequests|].shownIndicators
            && r.loginRequests[|s.loginRequests|].controllerCallsBefore == |s.indicators.log| + 1
            && |r.indicators.log| >= |s.indicators.log| + 2
            && r.indicators.log[..|s.indicators.log| + 2]
               == s.indicators.log + [Submitted(RefreshIndicator), Retracted(RefreshIndicatorID)]
            && RefreshIndicatorID !in r.indicators.active
  {
  }

  /** On success the subscription is dropped, the view model gets the session, and nothing is sent. */
  lemma RefreshOnSuccess(s: Snapshot, credentials: WaitlistScreenCredentials, userSession: UserSession)
    ensures var r := RefreshResult(s, credentials, credentials.homeserver, Success(userSession));
            !r.refreshSubscribed && r.viewModelSession == Some(userSession) && r.actions == s.actions
            && r.indicators.log == s.indicators.log + [Submitted(RefreshIndicator), Retracted(RefreshIndicatorID)]
  {
  }

  /** Still on the waitlist: nothing is sent, no failure is shown, the subscription stays. */
  lemma RefreshOnWaitlist(s: Snapshot, credentials: WaitlistScreenCredentials)
    ensures var r := RefreshResult(s, credentials, credentials.homeserver, Failure(IsOnWaitlist));
            r.actions == s.actions && r.refreshSubscribed == s.refreshSubscribed
            && r.viewModelSession == s.viewModelSession
            && r.indicators.log == s.indicators.log + [Submitted(RefreshIndicator), Retracted(RefreshIndicatorID)]
  {
  }

  /** Invalid credentials: cancel is sent and no failure is shown. */
  lemma RefreshOnInvalidCredentials(s: Snapshot, credentials: WaitlistScreenCredentials)
    ensures var r := RefreshResult(s, credentials, credentials.homeserver, Failure(InvalidCredentials));
            r.actions == s.actions + [Cancel] && r.refreshSubscribed == s.refreshSubscribed
            && r.viewModelSession == s.viewModelSession
            && r.indicators.log == s.indicators.log + [Submitted(RefreshIndicator), Retracted(RefreshIndicatorID)]
  {
  }

  /** Any other failure: the failure toast is shown and nothing is sent. */
  lemma RefreshOnOtherFailure(s: Snapshot, credentials: WaitlistScreenCredentials, reason: string)
    ensures var r := RefreshResult(s, credentials, credentials.homeserver, Failure(OtherFailure(reason)));
            r.actions == s.actions && r.refreshSubscribed == s.refreshSubscribed
            && r.viewModelSession == s.viewModelSession
            && r.indicators.log == s.indicators.log + [Submitted(RefreshIndicator), Retracted(RefreshIndicatorID),
                                                       Submitted(FailureIndicator)]
            && FailureIndicatorID in r.indicators.active
  {
  }

  // ---- Any number of foreground notifications ----------------------------

  /** Once the refresh indicator is down, no run of foreground notifications leaves it up. */
  lemma {:induction false} RunKeepsRefreshIndicatorRetracted(s: Snapshot, credentials: WaitlistScreenCredentials,
                                                            events: seq<ForegroundEvent>)
    requires RefreshIndicatorID !in s.indicators.active
    ensures RefreshIndicatorID !in Run(s, credentials, events).indicators.active
    decreases |events|
  {
    if events != [] {
      var next := OnForeground(s, credentials, events[0]);
      if s.refreshSubscribed && credentials.homeserver == events[0].serviceHomeserver {
        RefreshBracketsLogin(s, credentials, events[0].serviceHomeserver, events[0].loginResult);
      }
      RunKeepsRefreshIndicatorRetracted(next, credentials, events[1..]);
    }
  }

  /** Refreshing never signs in by itself: every action it sends is cancel. */
  lemma {:induction false} RunSendsOnlyCancel(s: Snapshot, credentials: WaitlistScreenCredentials,
                                             events: seq<ForegroundEvent>)
    ensures var r := Run(s, credentials, events);
            |s.actions| <= |r.actions| && r.actions[..|s.actions|] == s.actions
            && forall i :: |s.actions| <= i < |r.actions| ==> r.actions[i] == Cancel
    decreases |events|
  {
    if events != [] {
      var next := OnForeground(s, credentials, events[0]);
      assert |s.actions| <= |next.actions| && next.actions[..|s.actions|] == s.actions;
      assert forall i :: |s.actions| <= i < |next.actions| ==> next.actions[i] == Cancel;
      RunSendsOnlyCancel(next, credentials, events[1..]);
    }
  }

  /**
   * Every login request a run makes uses the stored credentials and is made while
   * the refresh indicator is shown, at most one per notification.
   */
  lemma {:induction false} RunLogsInWithStoredCredentials(s: Snapshot, credentials: WaitlistScreenCredentials,
                                                         events: seq<ForegroundEvent>)
    ensures var r := Run(s, credentials, events);
            |s.loginRequests| <= |r.loginRequests| <= |s.loginRequests| + |events|
            && r.loginRequests[..|s.loginRequests|] == s.loginRequests
            && forall i :: |s.loginRequests| <= i < |r.loginRequests| ==>
                 r.loginRequests[i].credentials == credentials
                 && RefreshIndicatorID in r.loginRequests[i].shownIndicators
    decreases |events|
  {
    if events != [] {
      var next := OnForeground(s, credentials, events[0]);
      assert next.loginRequests[..|s.loginRequests|] == s.loginRequests;
      RunLogsInWithStoredCredentials(next, credentials, events[1..]);
    }
  }

  /** After a successful sign-in drops the subscription, foreground notifications change nothing. */
  lemma {:induction false} RunAfterSignInIsInert(s: Snapshot, credentials: WaitlistScreenCredentials,
                                                events: seq<ForegroundEvent>)
    requires !s.refreshSubscribed
    ensures Run(s, credentials, events) == s
    decreases |events|
  {
    if events != [] {
      RunAfterSignInIsInert(s, credentials, events[1..]);
    }
  }

  /** In the controller's log, every submission of the refresh indicator is followed at once by its retraction. */
  ghost predicate RefreshRetractedAtOnce(log: seq<ControllerCall>) {
    forall i :: 0 <= i < |log| && log[i] == Submitted(RefreshIndicator) ==>
      i + 1 < |log| && log[i + 1] == Retracted(RefreshIndicatorID)
  }

  lemma RefreshRetractedAtOnceAppend(log: seq<ControllerCall>, tail: seq<ControllerCall>)
    requires RefreshRetractedAtOnce(log)
    requires tail == [Submitted(RefreshIndicator), Retracted(RefreshIndicatorID)]
          || tail == [Submitted(RefreshIndicator), Retracted(RefreshIndicatorID), Submitted(FailureIndicator)]
    ensures RefreshRetractedAtOnce(log + tail)
  {
  }

  lemma {:induction false} RunRetractsRefreshAtOnce(s: Snapshot, credentials: WaitlistScreenCredentials,
                                                   events: seq<ForegroundEvent>)
    requires RefreshRetractedAtOnce(s.indicators.log)
    ensures RefreshRetractedAtOnce(Run(s, credentials, events).indicators.log)
    decreases |events|
  {
    if events != [] {
      var next := OnForeground(s, credentials, events[0]);
      if s.refreshSubscribed && credentials.homeserver == events[0].serviceHomeserver {
        var log := s.indicators.log;
        var tail := next.indicators.log[|log|..];
        assert next.indicators.log == log + tail;
        RefreshRetractedAtOnceAppend(log, tail);
      }
      RunRetractsRefreshAtOnce(next, credentials, events[1..]);
    }
  }

  // ---- The coordinator object --------------------------------------------

  class WaitlistScreenCoordinator {
    const credentials: WaitlistScreenCredentials
    const userIndicatorController: UserIndicatorController
    /** The homeserver the view model was created with. */
    const viewModelHomeserver: LoginHomeserver
    /** Everything sent on the actions subject so far. */
    var actions: seq<WaitlistScreenCoordinatorAction>
    /** How many times `start` has subscribed to the view model's actions. */
    var viewModelSinks: nat
    /** Whether `refreshCancellable` still holds the foreground subscription. */
    var refreshSubscribed: bool
    /** The session last passed to `viewModel.update`. */
    var viewModelSession: Option<UserSession>
    /** Every login request made, with the indicators shown at the time. */
    var loginRequests: seq<LoginRequest>

    function Snap(): Snapshot
      reads this, userIndicatorController
    {
      Snapshot(actions, refreshSubscribed, viewModelSession, loginRequests, userIndicatorController.State())
    }

    /** Creates the view model for the credentials' homeserver and subscribes to foreground notifications. */
    constructor (credentials: WaitlistScreenCredentials, userIndicatorController: UserIndicatorController)
      ensures this.credentials == credentials && this.userIndicatorController == userIndicatorController
      ensures viewModelHomeserver == credentials.homeserver
      ensures actions == [] && viewModelSinks == 0 && refreshSubscribed
      ensures viewModelSession == None && loginRequests == []
    {
      this.credentials := credentials;
      this.userIndicatorController := userIndicatorController;
      viewModelHomeserver := credentials.homeserver;
      actions, viewModelSinks, refreshSubscribed := [], 0, true;
      viewModelSession, loginRequests := None, [];
    }

    /** Subscribes to the view model's actions. */
    method Start()
      modifies this
      ensures viewModelSinks == old(viewModelSinks) + 1
      ensures actions == old(actions) && refreshSubscribed == old(refreshSubscribed)
      ensures viewModelSession == old(viewModelSession) && loginRequests == old(loginRequests)
    {
      viewModelSinks := viewModelSinks + 1;
    }

    /** The view model emits `action`: each subscription `start` made forwards its route. */
    method ReceiveViewModelAction(action: WaitlistScreenViewModelAction)
      modifies this
      ensures actions == old(actions) + Repeat(Route(action), viewModelSinks)
      ensures viewModelSinks == old(viewModelSinks) && refreshSubscribed == old(refreshSubscribed)
      ensures viewModelSession == old(viewModelSession) && loginRequests == old(loginRequests)
    {
      actions := actions + Repeat(Route(action), viewModelSinks);
    }

    /** The app returns to the foreground; the login, if made, returns `loginResult`. */
    method WillEnterForeground(serviceHomeserver: LoginHomeserver, loginResult: LoginResult)
      modifies this, userIndicatorController
      ensures Snap() == OnForeground(old(Snap()), credentials, ForegroundEvent(serviceHomeserver, loginResult))
      ensures viewModelSinks == old(viewModelSinks)
    {
      if refreshSubscribed {
        Refresh(serviceHomeserver, loginResult);
      }
    }

    /** Retries the login to see whether the waitlist has opened up. */
    method Refresh(serviceHomeserver: LoginHomeserver, loginResult: LoginResult)
      modifies this, userIndicatorController
      ensures Snap() == RefreshResult(old(Snap()), credentials, serviceHomeserver, loginResult)
      ensures viewModelSinks == old(viewModelSinks)
    {
      if credentials.homeserver != serviceHomeserver {
        actions := actions + [Cancel];
        return;
      }
      ShowRefreshIndicator();
      loginRequests := loginRequests
        + [LoginRequest(credentials, userIndicatorController.active, |userIndicatorController.log|)];
      match loginResult {
        case Success(userSession) =>
          HideRefreshIndicator();
          refreshSubscribed := false;
          viewModelSession := Some(userSession);
        case Failure(IsOnWaitlist) =>
          HideRefreshIndicator();
        case Failure(InvalidCredentials) =>
          HideRefreshIndicator();
          actions := actions + [Cancel];
        case Failure(OtherFailure(_)) =>
          HideRefreshIndicator();
          ShowFailureIndicator();
      }
    }

    method ShowRefreshIndicator()
      modifies userIndicatorController
      ensures userIndicatorController.State() == Submit(old(userIndicatorController.State()), RefreshIndicator)
    {
      userIndicatorController.SubmitIndicator(RefreshIndicator);
    }

    method HideRefreshIndicator()
      modifies userIndicatorController
      ensures userIndicatorController.State() == Retract(old(userIndicatorController.State()), RefreshIndicatorID)
    {
      userIndicatorController.RetractIndicatorWithId(RefreshIndicatorID);
    }

    method ShowFailureIndicator()
      modifies userIndicatorController
      ensures userIndicatorController.State() == Submit(old(userIndicatorController.State()), FailureIndicator)
    {
      userIndicatorController.SubmitIndicator(FailureIndicator);
    }
  }
}

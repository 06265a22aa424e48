# Waitlist, server confirmation and module service locator of Element X iOS

This project models three small pieces of sequential logic from the Element X
iOS client (a Matrix chat client) and proves properties of them in Dafny.

- **Server confirmation copy** (`server_confirmation.dfy`). The server-confirmation
  screen's view state picks its title and message from the homeserver address and
  the authentication flow (log in or register). Localized strings are opaque,
  distinct constants (`localization.dfy`). The title templates are symbolic
  applications of a template key to the address.
- **Module SDK service locator** (`service_locator.dfy`). This is a class whose
  only state is a map from service keys to services. `RegisterService` updates the
  map in place and `GetService` reads it. The Swift `as? T` cast becomes a
  comparison between the stored service's type tag and the requested tag.
- **Waitlist screen coordinator** (`waitlist.dfy`, `user_indicators.dfy`). The
  coordinator forwards view-model actions, and it retries the login whenever the
  app comes back to the foreground. The user-indicator controller is a class
  holding the set of active indicator ids and a log of calls. The coordinator is a
  class whose `Refresh` method is proved against the specification function
  `RefreshResult`. Each login request records the indicator ids active at that
  moment and how many controller calls came before it, so the order of the
  indicator calls and the login is part of the state. Lemmas cover single
  refreshes and arbitrary runs of foreground notifications.

The foreground notification is an explicit call (`WillEnterForeground`). It only
triggers a refresh while the subscription is held, as `refreshCancellable` does.
The awaited `login` call is one synchronous step, and its result is a parameter.

## Model

| member | source | states |
|---|---|---|
| `ServerConfirmation.Title` | ElementX/Sources/Screens/Authentication/ServerConfirmationScreen/ServerConfirmationScreenModels.swift:26-33 | The title is a template applied to exactly the homeserver address. The template is the login one iff the flow is login, and the register one iff the flow is register. |
| `ServerConfirmation.Message` | ElementX/Sources/Screens/Authentication/ServerConfirmationScreen/ServerConfirmationScreenModels.swift:36-49 | Each possible message is tied in both directions to the inputs that produce it. The register message appears iff the flow is register, whatever the address. The matrix.org message appears iff the flow is login and the address is exactly "matrix.org", and likewise for "element.io". The empty string appears iff the flow is login with any other address. |
| `ServerConfirmation.LoginMessageIsOneOfThree` | ElementX/Sources/Screens/Authentication/ServerConfirmationScreen/ServerConfirmationScreenModels.swift:38-45 | A login message is one of the three fixed outcomes. No address other than "matrix.org" or "element.io" yields a non-empty one. |
| `ServerConfirmation.AddressMatchingIsCaseSensitive` | ElementX/Sources/Screens/Authentication/ServerConfirmationScreen/ServerConfirmationScreenModels.swift:39-42 | Matching is exact string equality, with no case folding or trimming. "Matrix.org", "Element.io" and " matrix.org" all get the empty login message. |
| `ServerConfirmation.WindowNeverMatters` | ElementX/Sources/Screens/Authentication/ServerConfirmationScreen/ServerConfirmationScreenModels.swift:17-49 | Two states with the same address and flow have the same title and message, whatever their windows. |
| `ServerConfirmation.TitleTellsFlowsApart` | ElementX/Sources/Screens/Authentication/ServerConfirmationScreen/ServerConfirmationScreenModels.swift:26-33 | States with different flows never have equal titles. |
| `ServiceLocator.Lookup` | Modules/ModuleSDK/Sources/ServiceLocator/ModuleSDKServiceLocator.swift:28-30 | A lookup finds a service iff something is stored under the key and its type tag is the requested one. What it finds is the stored entry. Otherwise it is nil, both when the key is missing and when the type differs. |
| `ServiceLocator.ModuleSDKServiceLocator.constructor` | Modules/ModuleSDK/Sources/ServiceLocator/ModuleSDKServiceLocator.swift:20 | The registry starts empty and keyed by its entries' own keys. |
| `ServiceLocator.EmptyRegistryFindsNothing` | Modules/ModuleSDK/Sources/ServiceLocator/ModuleSDKServiceLocator.swift:20-30 | Nothing is found in the initial, empty registry. |
| `ServiceLocator.ModuleSDKServiceLocator.RegisterService` | Modules/ModuleSDK/Sources/ServiceLocator/ModuleSDKServiceLocator.swift:22-25 | The new registry is the old one with the service stored under its own key. Every other entry is unchanged, and the invariant that each entry sits under its own key is kept. |
| `ServiceLocator.ModuleSDKServiceLocator.GetService` | Modules/ModuleSDK/Sources/ServiceLocator/ModuleSDKServiceLocator.swift:27-30 | Returns the lookup of the key with the requested type in the current registry. By the registry invariant, a service it finds has the requested key and type. It changes nothing, since it has no modifies clause. |
| `ServiceLocator.RegisterThenGet` | Modules/ModuleSDK/Sources/ServiceLocator/ModuleSDKServiceLocator.swift:22-30 | After registering a service, its key yields that service for its own type tag and nil for every other tag. |
| `ServiceLocator.RegisterLeavesOthers` | Modules/ModuleSDK/Sources/ServiceLocator/ModuleSDKServiceLocator.swift:22-25 | Registering a service changes no lookup under any other key. |
| `ServiceLocator.SecondRegistrationWins` | Modules/ModuleSDK/Sources/ServiceLocator/ModuleSDKServiceLocator.swift:24 | Two registrations under one key leave the same registry as only the second one would. |
| `ServiceLocator.RegisterAllIsLastWriteWins` | Modules/ModuleSDK/Sources/ServiceLocator/ModuleSDKServiceLocator.swift:22-25 | Take any sequence of registrations. Afterwards, a key is present iff it was present before or was registered. It then holds the last service registered under it, or the old entry if none was registered. |
| `ServiceLocator.RegisterAllKeepsKeys` | Modules/ModuleSDK/Sources/ServiceLocator/ModuleSDKServiceLocator.swift:22-25 | Any sequence of registrations keeps every entry stored under its own key. |
| `UserIndicators.Submit` | ElementX/Sources/Screens/Authentication/WaitlistScreen/WaitlistScreenCoordinator.swift:103-107 | Submitting makes the indicator's id active, leaves the other active ids as they were, and logs the call. |
| `UserIndicators.Retract` | ElementX/Sources/Screens/Authentication/WaitlistScreen/WaitlistScreenCoordinator.swift:110 | Retracting makes the id inactive, leaves the other ids as they were, and logs the call. |
| `Waitlist.Route` | ElementX/Sources/Screens/Authentication/WaitlistScreen/WaitlistScreenCoordinator.swift:50-57 | The view model's cancel becomes the coordinator's cancel. Continue becomes signed-in with the same session. Both directions hold. |
| `Waitlist.IndicatorIDsDiffer` | ElementX/Sources/Screens/Authentication/WaitlistScreen/WaitlistScreenCoordinator.swift:99-100 | The refresh and failure indicator ids are different strings. |
| `Waitlist.RefreshOnHomeserverChange` | ElementX/Sources/Screens/Authentication/WaitlistScreen/WaitlistScreenCoordinator.swift:70-74 | If the credentials' homeserver differs from the service's, a refresh only sends cancel. It submits no indicator, makes no login request, and changes nothing else. |
| `Waitlist.RefreshBracketsLogin` | ElementX/Sources/Screens/Authentication/WaitlistScreen/WaitlistScreenCoordinator.swift:76-111 | With the same homeserver, exactly one login request is made, with the stored credentials. The persistent modal refresh indicator is submitted by the controller call just before that request, so it is active while the login runs. The very next controller call retracts it, so it is not active afterwards, whatever the login result. |
| `Waitlist.RefreshOnSuccess` | ElementX/Sources/Screens/Authentication/WaitlistScreen/WaitlistScreenCoordinator.swift:83-86 | On success the foreground subscription is dropped and the view model receives the session. No action is sent, and the only controller calls are the refresh submission and its retraction. |
| `Waitlist.RefreshOnWaitlist` | ElementX/Sources/Screens/Authentication/WaitlistScreen/WaitlistScreenCoordinator.swift:87-88 | While still on the waitlist, no action is sent and no failure indicator is shown. The subscription and the view-model session stay as they were. |
| `Waitlist.RefreshOnInvalidCredentials` | ElementX/Sources/Screens/Authentication/WaitlistScreen/WaitlistScreenCoordinator.swift:89-91 | With invalid credentials, exactly one cancel is sent and no failure indicator is shown. The subscription and the view-model session stay as they were. |
| `Waitlist.RefreshOnOtherFailure` | ElementX/Sources/Screens/Authentication/WaitlistScreen/WaitlistScreenCoordinator.swift:92-94 | On any other failure, the failure toast is submitted after the refresh indicator is retracted, and it is active afterwards. No action is sent, and the subscription and the view-model session stay as they were. |
| `Waitlist.RunKeepsRefreshIndicatorRetracted` | ElementX/Sources/Screens/Authentication/WaitlistScreen/WaitlistScreenCoordinator.swift:69-111 | Start with the refresh indicator inactive. No sequence of foreground notifications, with any homeservers and login results, leaves it active. |
| `Waitlist.RunSendsOnlyCancel` | ElementX/Sources/Screens/Authentication/WaitlistScreen/WaitlistScreenCoordinator.swift:69-97 | Refreshing only ever appends cancel actions, whatever the notifications. The earlier actions are kept, and a refresh never sends signed-in itself. |
| `Waitlist.RunLogsInWithStoredCredentials` | ElementX/Sources/Screens/Authentication/WaitlistScreen/WaitlistScreenCoordinator.swift:69-97 | Any run of notifications makes at most one login request per notification. Each uses the stored credentials and is made while the refresh indicator is shown. |
| `Waitlist.RunAfterSignInIsInert` | ElementX/Sources/Screens/Authentication/WaitlistScreen/WaitlistScreenCoordinator.swift:43-86 | Once the subscription has been dropped, foreground notifications change nothing. |
| `Waitlist.RunRetractsRefreshAtOnce` | ElementX/Sources/Screens/Authentication/WaitlistScreen/WaitlistScreenCoordinator.swift:76-111 | After any run, every submission of the refresh indicator in the controller log is directly followed by its retraction. |
| `Waitlist.WaitlistScreenCoordinator.constructor` | ElementX/Sources/Screens/Authentication/WaitlistScreen/WaitlistScreenCoordinator.swift:38-47 | The view model is created for the credentials' homeserver, and the foreground subscription is held. Nothing has been sent or requested yet. |
| `Waitlist.WaitlistScreenCoordinator.Start` | ElementX/Sources/Screens/Authentication/WaitlistScreen/WaitlistScreenCoordinator.swift:49-60 | Adds one subscription to the view model's actions and changes nothing else. |
| `Waitlist.WaitlistScreenCoordinator.ReceiveViewModelAction` | ElementX/Sources/Screens/Authentication/WaitlistScreen/WaitlistScreenCoordinator.swift:50-57 | Each subscription made by `start` appends the routed action once. Nothing else changes. |
| `Waitlist.WaitlistScreenCoordinator.WillEnterForeground` | ElementX/Sources/Screens/Authentication/WaitlistScreen/WaitlistScreenCoordinator.swift:43-46 | A foreground notification refreshes only while the subscription is held, and otherwise leaves the state unchanged. |
| `Waitlist.WaitlistScreenCoordinator.Refresh` | ElementX/Sources/Screens/Authentication/WaitlistScreen/WaitlistScreenCoordinator.swift:69-97 | The coordinator's and the controller's new state is `RefreshResult` of the old state. The lemmas above state what that outcome is. |
| `Waitlist.WaitlistScreenCoordinator.ShowRefreshIndicator` | ElementX/Sources/Screens/Authentication/WaitlistScreen/WaitlistScreenCoordinator.swift:102-107 | Submits the modal, persistent indicator with id "WaitlistCoordinatorRefresh" and the refreshing title. |
| `Waitlist.WaitlistScreenCoordinator.HideRefreshIndicator` | ElementX/Sources/Screens/Authentication/WaitlistScreen/WaitlistScreenCoordinator.swift:109-111 | Retracts the id "WaitlistCoordinatorRefresh". |
| `Waitlist.WaitlistScreenCoordinator.ShowFailureIndicator` | ElementX/Sources/Screens/Authentication/WaitlistScreen/WaitlistScreenCoordinator.swift:113-118 | Submits the toast with id "WaitlistCoordinatorFailure", the unknown-error title and the "xmark" icon. |

## Left out

- The contents of localized strings are not modelled. `L10n` is generated code that is not part of this model. So the model cannot say whether a translation is empty or equal to another string.
- The title templates are modelled as injective. Two titles are equal only when their template and address are equal, which a real format string need not guarantee.
- `as? T` is reduced to equality of type tags. Subclass and protocol conformance are not modelled.
- UserIndicator's initializer defaults are not part of this model. The failure toast takes `persistent == false`, the evident default, because the call does not pass it.
- `LoginHomeserver` is reduced to its address, so homeserver equality is equality of addresses. The struct's other fields are not part of this model.
- `Refresh` and `WillEnterForeground` make login a single synchronous step. The model does not capture concurrency between the `Task` and a second foreground notification arriving while a login is in flight. Nor does it capture the actor hop.
- After `viewModel.update(userSession:)`, the waitlist view model presumably emits continue, which `start` routes to signed-in. That view model is not part of this model. Its result is visible only as `viewModelSession`.
- The user-indicator controller is modelled only by the active ids and the call log. Its presentation, toast timeouts and other clients of the shared controller are not modelled.
- `NotificationCenter`, Combine publishers and cancellables, `MXLog` and `toPresentable` (UI) are left out. Publishers and cancellables appear only as the explicit calls, the `refreshSubscribed` flag for `refreshCancellable`, and the `viewModelSinks` count for the subscriptions `start` stores in `cancellables`.
- The `shared` singleton and the private initializer of the service locator are left out. The model needs only one instance, with no global state.
- The timeline item factory, timeline event proxy and item-menu action rules are not part of this model. They belong to the timeline rendering layer, not to the three pieces modelled here, and the item-menu view is presentation only.
- The invite-users coordinator, the package manifests and the notification-extension settings protocol are left out. They are navigation glue, build configuration and a declaration with no logic.

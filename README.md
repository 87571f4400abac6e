# AdMob iOS onboarding — a Dafny model

The app walks a developer through integrating Google's ads SDK one screen at a
time. It covers creating the SDK singleton, asking for tracking consent,
starting the SDK and toggling a banner ad. The logic the app owns is small:

* `AdMobManager` holds three flags: `isCreated`, `isConfigured` and `canShowBanner`.
  Two guarded, idempotent operations set the first two. A third operation flips the banner flag.
  Two read-only views depend on the flags: the banner slot and the status row.
* A fixed list of five named steps with a `currentViewIndex`. A "Go to" button
  advances the index by one. The screen that appears may call the manager.
* The consent screen's decisions:
  * the status caption and icon for each consent status;
  * whether the advertising identifier (IDFA) may be shown;
  * what the completion handlers of the consent SDK do with the error and status they receive.

Files:

* `onboarding.dfy` (module `Onboarding`) has the manager.
  * The class `AdMobManager` has the three fields. It also has a ghost log `sdkCalls` of every call made into the ads SDK.
  * Its methods are tied to pure step functions on a `ManagerState` value.
  * `Run` applies a sequence of operations. The lemmas about `Run` say what any sequence of screen events can do to the manager.
* `app.dfy` (module `App`) has the steps list `Views`, `advanceViewIndex`, the manager calls each screen makes, and the class `OnboardingApp`.
  * `OnboardingApp` holds the manager and `currentViewIndex`.
  * `AppStep`/`AppRun` are the pure account of the user's presses.
  * There is a scenario lemma and a client method for the walk as shipped.
* `consent.dfy` (module `Consent`) has `parseConsentStatus`, `getIDFA` and the completion branches of `showConsentInformation`/`loadForm`, as pure functions.
* `display.dfy` and `wrappers.dfy` hold the rendered status row (icon, tint, caption) and `Option`.

As shipped, the "Create SDK Object" step shows `ContentView` rather than
`CreateObjectView`; the source marks this line TODO. So no screen ever calls
`createSdkObject`. `configure` runs on the "Initialize SDK" step while
`isCreated` is still false. The model keeps this wiring:
* `App.ShippedNeverCreates` proves that `isCreated` never changes under any sequence of presses.
* `App.ShippedWalkthrough` and `App.ShippedOnboarding` show the walk ending configured, not created, and showing the banner.

## Model

| member | source | states |
|---|---|---|
| `Onboarding.AdMobManager.constructor` | AdMob_iOS/AdMob_iOSApp.swift:12-15 | A new manager has all three flags false and has made no SDK call. |
| `Onboarding.AdMobManager.CreateSdkObject` | AdMob_iOS/AdMob_iOSApp.swift:17-26 | Afterwards `isCreated` holds. Only `isCreated` and the call log may change. If it was already created, no SDK call is logged. Otherwise it logs exactly the `sharedInstance()` call. |
| `Onboarding.AdMobManager.Configure` | AdMob_iOS/AdMob_iOSApp.swift:28-37 | Afterwards `isConfigured` holds, with no precondition on `isCreated`. Only `isConfigured` and the call log may change. A repeat call logs nothing. A first call logs `sharedInstance()` followed by `start`. |
| `Onboarding.AdMobManager.ToggleBanner` | AdMob_iOS/AdMob_iOSApp.swift:39-42 | `canShowBanner` becomes its negation. Nothing else may change. |
| `Onboarding.CreateSdkObjectStep` | AdMob_iOS/AdMob_iOSApp.swift:17-26 | The result is created and keeps the other two flags. It makes no call exactly when already created. It never calls `start` and makes at most one call. |
| `Onboarding.ConfigureStep` | AdMob_iOS/AdMob_iOSApp.swift:28-37 | The result is configured and keeps the other two flags. It makes no call exactly when already configured. It calls `start` once when not yet configured and never otherwise. |
| `Onboarding.ToggleBannerStep` | AdMob_iOS/AdMob_iOSApp.swift:39-42 | The banner flag is flipped, the other flags are kept, and no SDK call is made. |
| `Onboarding.ConditionalBannerView` | AdMob_iOS/AdMob_iOSApp.swift:44-50 | The banner is produced if and only if the SDK is configured and the flag is set. Otherwise the slot is empty. |
| `Onboarding.StatusMessage` | AdMob_iOS/AdMob_iOSApp.swift:57-75 | The row reads "AdMob is configured" with a green `checkmark.circle` exactly when configured. Otherwise it reads "AdMob is not configured" with a red `xmark.circle`. |
| `Onboarding.CreateSdkObjectIdempotent` | AdMob_iOS/AdMob_iOSApp.swift:17-26 | Two calls give the same state and the same SDK calls as one call. |
| `Onboarding.ConfigureIdempotent` | AdMob_iOS/AdMob_iOSApp.swift:28-37 | Two calls give the same state and the same SDK calls as one call, so `start` is not called again. |
| `Onboarding.ToggleBannerInvolution` | AdMob_iOS/AdMob_iOSApp.swift:39-42 | Two toggles restore the original state and make no SDK call. |
| `Onboarding.RunFlags` | AdMob_iOS/AdMob_iOSApp.swift:17-37 | After any sequence of operations, `isCreated` (resp. `isConfigured`) holds if and only if it held before or `createSdkObject` (resp. `configure`) occurred. The flags are never cleared. |
| `Onboarding.RunBannerFlag` | AdMob_iOS/AdMob_iOSApp.swift:39-42 | After any sequence, the banner flag is the initial one flipped once per `toggleBanner`, i.e. flipped if and only if there was an odd number of toggles. |
| `Onboarding.RunSdkCalls` | AdMob_iOS/AdMob_iOSApp.swift:17-37 | Over any sequence, `start` is called once per false-to-true change of `isConfigured`. `sharedInstance()` is called once per such change of either guard flag. |
| `Onboarding.StartAtMostOnce` | AdMob_iOS/AdMob_iOSApp.swift:28-37 | Over any sequence, `start` is called at most once. It is never called if the manager was already configured. It is called if and only if the manager was unconfigured and `configure` occurred. |
| `Onboarding.BannerAfterRun` | AdMob_iOS/AdMob_iOSApp.swift:39-50 | From a fresh manager, the banner is on screen if and only if `configure` occurred and there was an odd number of toggles. A toggle with no configure leaves the slot empty. |
| `App.AdvanceViewIndex` | AdMob_iOS/AdMob_iOSApp.swift:120-138 | The "Go to" button exists if and only if `currentViewIndex < views.count - 1`. Its title is "Go to " followed by the name of `views[currentViewIndex + 1]`, which is in bounds. Otherwise only "Final View reached." is shown. |
| `App.AppearActions` | AdMob_iOS/CreateObjectView.swift:21-24 | A screen's `onAppear` calls `createSdkObject` if and only if it is `CreateObjectView`. It calls `configure` if and only if it is `InitializeSDKView` (InitializeSDKView.swift:19-22). No appearance toggles the banner. |
| `App.AppStep` | AdMob_iOS/AdMob_iOSApp.swift:120-163 | One press keeps `views[currentViewIndex]` in bounds. The index grows by exactly 1 when "Go to" is pressed while a next step exists. Otherwise it is unchanged. |
| `App.AppRun` | AdMob_iOS/AdMob_iOSApp.swift:95-159 | From an in-bounds index, no sequence of presses takes `views[currentViewIndex]` out of bounds. |
| `App.AppRunIndex` | AdMob_iOS/AdMob_iOSApp.swift:120-138 | After any sequence of presses, the index is the starting index plus the number of "Go to" presses, capped at the last step (4). |
| `App.ShippedNeverCreates` | AdMob_iOS/AdMob_iOSApp.swift:84-90 | With the shipped steps list, no sequence of presses changes `isCreated`. Every `sharedInstance()` call is paired with a `start`, so `createSdkObject` is never reached. |
| `App.AppStepNeverCreates` | AdMob_iOS/AdMob_iOSApp.swift:84-90 | With the shipped steps list, a single press never changes `isCreated`. Every `sharedInstance()` call it makes is paired with a `start`. |
| `App.AppStepStarts` | AdMob_iOS/InitializeSDKView.swift:19-22 | A single press calls `start` exactly when it turns `isConfigured` on. |
| `App.AppRunStartsAtMostOnce` | AdMob_iOS/AdMob_iOSApp.swift:28-37 | Over any sequence of presses, `start` is called once per false-to-true change of `isConfigured`, so at most once. |
| `App.ShippedSteps` | AdMob_iOS/AdMob_iOSApp.swift:84-138 | Each press of the shipped walk, one at a time. Step 1 ("Create SDK Object") and step 2 change nothing. Entering step 3 configures the manager with `sharedInstance()` and `start`. Step 4 changes nothing. The toggle there sets the banner flag. |
| `App.ShippedWalkthrough` | AdMob_iOS/AdMob_iOSApp.swift:84-90 | From launch, three presses reach "Initialize SDK". At that point the manager is configured but not created, after `sharedInstance()` and `start`. A fourth press and a toggle give a configured, not created manager that shows the banner. At index 4 only "Final View reached." is shown. |
| `App.OnboardingApp.constructor` | AdMob_iOS/AdMob_iOSApp.swift:94-95 | The app starts at step 0 with a fresh manager that has made no SDK call. |
| `App.OnboardingApp.CurrentView` | AdMob_iOS/AdMob_iOSApp.swift:150-159 | `views[currentViewIndex]` is defined whenever the app's invariant holds, and it is one of the steps. |
| `App.OnboardingApp.Appear` | AdMob_iOS/CreateObjectView.swift:21-24 | A screen appearing changes the manager and its call log exactly as `Run` does with that screen's operations. |
| `App.OnboardingApp.Advance` | AdMob_iOS/AdMob_iOSApp.swift:121-124 | The method is callable only while the "Go to" button is shown. It adds exactly 1 to the index, keeps the index in bounds, and runs the new screen's `onAppear`, as `AppStep` prescribes. |
| `App.OnboardingApp.PressToggleBanner` | AdMob_iOS/BasicFunctionalityView.swift:19 | On the basic-functionality step, the press toggles the banner flag, as `AppStep` prescribes. The index is unchanged. |
| `App.ShippedOnboarding` | AdMob_iOS/AdMob_iOSApp.swift:84-90 | Driving the real objects through every step and toggling the banner ends with the SDK not created, configured, and the banner on screen. |
| `Consent.ParseConsentStatus` | AdMob_iOS/InquireConsentState.swift:28-65 | The mapping is total. Each known status has a fixed icon, tint and caption: `obtained` is `checkmark.circle`, green, "consent obtained"; `unknown` is `questionmark.circle`, yellow, "consent unknown"; `required` is `exclamationmark`, black, "consent required"; `notRequired` is `questionmark.exclamationmark`, black, "consent not required". Green is used if and only if obtained, and yellow if and only if unknown. Any other status gives the bare caption "default" with no icon. |
| `Consent.ParseConsentStatusInjective` | AdMob_iOS/InquireConsentState.swift:28-65 | Different statuses give different captions, so all five outcomes are distinct. |
| `Consent.GetIdfa` | AdMob_iOS/InquireConsentState.swift:13-26 | The result is never absent. It is the literal "nil" on iOS 14+ when tracking is not authorized, and before iOS 14 when advertising tracking is disabled. Otherwise it is the identifier's UUID string. |
| `Consent.IdfaCaption` | AdMob_iOS/InquireConsentState.swift:91 | The force-unwrap `getIDFA()!` is always defined. The caption is "nil" or the UUID string. |
| `Consent.OnConsentInfoUpdated` | AdMob_iOS/InquireConsentState.swift:146-155 | `loadForm` is invoked if and only if the update finished without an error. Success does exactly that. An error leads only to logging. |
| `Consent.OnFormLoaded` | AdMob_iOS/InquireConsentState.swift:163-201 | The form is presented if and only if there was no load error, a form came back and the status is `required`. A load error only logs and refreshes the status row. A successful load that does not present the form does nothing. |
| `Consent.OnFormDismissed` | AdMob_iOS/InquireConsentState.swift:191-198 | After the form is dismissed, the status row is refreshed. It is refreshed twice when consent is now obtained and once otherwise. |
| `Consent.ShowConsentInformation` | AdMob_iOS/InquireConsentState.swift:138-158 | Pressing "Request consent form" first issues the request and refreshes the status row. At least one completion effect follows. |
| `Consent.ShowConsentInformationDecisions` | AdMob_iOS/InquireConsentState.swift:138-203 | Over the whole flow, the form is loaded if and only if the update succeeded. It is presented if and only if, in addition, the load succeeded, a form came back and consent is required. An update error yields only the request, the refresh and the log entry. |

## Left out

- The ads, consent and tracking SDKs are not modelled: `GADMobileAds`, `UMPConsentInformation`, `UMPConsentForm` and `ATTrackingManager`. Their calls to the ads SDK are recorded in a ghost log. Their answers (errors, statuses, whether a form came back, the tracking state, the identifier) are parameters.
- Completion handlers run asynchronously in the app. The model puts each completion's effects after the synchronous refresh that follows the request. It does not model interleavings with other presses.
- SwiftUI rendering is reduced to the data each row shows: layout, padding, fonts, previews and `@State`/`@Published` observation. The consent screen's `parsedConsentStatus` state is a `RefreshStatus` effect.
- `BannerView`, `BannerViewController` and the width delegate (AdMob_iOSApp.swift:180-267) are not modelled. They are UIKit layout over floating-point widths plus the SDK's banner loader.
- `debugStatusMessage` depends on a compile-time flag. It and all `print` logging are left out, except that the completion handlers' log lines appear as `LogUpdateError`/`LogLoadError` effects.
- `extendedFunctionality` only logs, and no screen calls it.
- The "Reset consent" button and the consent screen's `onAppear` only call the consent SDK and then refresh the status row. Refreshing is `ParseConsentStatus` of whatever status the SDK reports.
- The "Request IDFA tracking" button only asks the tracking API for authorization. Its completion only logs, and nothing on screen is refreshed. The model leaves the button out; its caption is `Consent.IdfaCaption`.
- Consent.OnFormLoaded: the `PresentForm` effect assumes the app has a first window with a root view controller. The source force-unwraps both (InquireConsentState.swift:185-190) and would crash without them. The model has no window and does not capture that crash.
- `getIDFA` takes the UUID string as a parameter. The model does not state the UUID format.
- A press on a button that is not on screen is a no-op in the pure account of presses (`App.AppStep`). The class methods instead require the button to be present.

/** The app's onboarding walk: a fixed list of named screens, an index into
    it that the "Go to" button advances, and the manager calls each screen
    makes when it appears or when its button is pressed. */
module App {
  import opened Onboarding

  /** The screens a `NamedView` can wrap. */
  datatype Screen =
    | ContentView
    | CreateObjectView
    | InquireConsentView
    | InitializeSDKView
    | BasicFunctionalityView

  datatype NamedView = NamedView(name: string, view: Screen)

  /** The steps in order.  The "Create SDK Object" entry shows `ContentView`,
      as shipped, so `CreateObjectView` is never on screen. */
  const Views: seq<NamedView> := [
    NamedView("Start", ContentView),
    NamedView("Create SDK Object", ContentView),
    NamedView("Inquire Consent", InquireConsentView),
    NamedView("Initialize SDK", InitializeSDKView),
    NamedView("Basic Functionality", BasicFunctionalityView)
  ]

  /** The control under the current screen: a button naming the next step,
      or a caption once the last step is reached. */
  datatype AdvanceControl = GoToButton(title: string) | Caption(text: string)

  /** `advanceViewIndex`: a "Go to" button exists only while a later step
      exists, and it names that step. */
  function AdvanceViewIndex(index: nat): (c: AdvanceControl)
    ensures c.GoToButton? <==> index < |Views| - 1
    ensures c.GoToButton? ==> index + 1 < |Views| && c.title == "Go to " + Views[index + 1].name
    ensures c.Caption? ==> c.text == "Final View reached."
  {
    if index < |Views| - 1 then GoToButton("Go to " + Views[index + 1].name)
    else Caption("Final View reached.")
  }

  /** The manager operations a screen's `onAppear` performs: only
      `CreateObjectView` creates the SDK object and only
      `InitializeSDKView` configures it. */
  function AppearActions(screen: Screen): (actions: seq<Action>)
    ensures Create in actions <==> screen == CreateObjectView
    ensures Configure in actions <==> screen == InitializeSDKView
    ensures Toggle !in actions && |actions| <= 1
  {
    match screen
    case CreateObjectView => [Create]
    case InitializeSDKView => [Configure]
    case _ => []
  }

  /** The user's inputs: the "Go to" button and the "Toggle Banner" button of
      the basic-functionality screen.  A press where the button is not shown
      does nothing. */
  datatype Event = TapAdvance | TapToggleBanner

  datatype AppState = AppState(currentViewIndex: nat, manager: ManagerState)

  /** An app state together with the SDK calls made on the way to it. */
  datatype Transition = Transition(state: AppState, calls: seq<SdkCall>)

  /** At launch the first step shows and the manager is fresh. */
  const Launch := AppState(0, Initial)

  /** `views[currentViewIndex]` is a valid subscript. */
  predicate InBounds(s: AppState) { s.currentViewIndex < |Views| }

  function AppStep(s: AppState, e: Event): (r: Transition)
    requires InBounds(s)
    ensures InBounds(r.state)
    ensures r.state.currentViewIndex
            == if e == TapAdvance && s.currentViewIndex < |Views| - 1 then s.currentViewIndex + 1
               else s.currentViewIndex
  {
    match e
    case TapAdvance =>
      if AdvanceViewIndex(s.currentViewIndex).GoToButton? then
        var next := s.currentViewIndex + 1;
        var appeared := Run(s.manager, AppearActions(Views[next].view));
        Transition(AppState(next, appeared.state), appeared.calls)
      else Transition(s, [])
    case TapToggleBanner =>
      if Views[s.currentViewIndex].view == BasicFunctionalityView then
        Transition(s.(manager := ToggleBannerStep(s.manager).state), [])
      else Transition(s, [])
  }

  /** The app after the inputs `events`, in order, and every SDK call made. */
  function AppRun(s: AppState, events: seq<Event>): (r: Transition)
    requires InBounds(s)
    ensures InBounds(r.state)
    decreases |events|
  {
    if events == [] then Transition(s, [])
    else
      var first := AppStep(s, events[0]);
      var rest := AppRun(first.state, events[1..]);
      Transition(rest.state, first.calls + rest.calls)
  }

  function Min(a: int, b: int): int { if a <= b then a else b }

  /** Each "Go to" press moves one step forward until the last step, and the
      index never leaves the list. */
  lemma {:induction false} AppRunIndex(s: AppState, events: seq<Event>)
    requires InBounds(s)
    ensures AppRun(s, events).state.currentViewIndex
            == Min(s.currentViewIndex + Count(events, TapAdvance), |Views| - 1)
    decreases |events|
  {
    if events != [] {
      AppRunIndex(AppStep(s, events[0]).state, events[1..]);
    }
  }

  /** As shipped, no screen reaches `createSdkObject`: `isCreated` never
      changes, and every `sharedInstance()` call is the one `configure`
      makes before `start`. */
  lemma {:induction false} ShippedNeverCreates(s: AppState, events: seq<Event>)
    requires InBounds(s)
    ensures AppRun(s, events).state.manager.isCreated == s.manager.isCreated
    ensures Count(AppRun(s, events).calls, SharedInstance) == Count(AppRun(s, events).calls, Start)
    decreases |events|
  {
    if events != [] {
      var first := AppStep(s, events[0]);
      var rest := AppRun(first.state, events[1..]);
      ShippedNeverCreates(first.state, events[1..]);
      CountAppend(first.calls, rest.calls, SharedInstance);
      CountAppend(first.calls, rest.calls, Start);
      AppStepNeverCreates(s, events[0]);
    }
  }

  /** One press of the shipped app never creates the SDK object. */
  lemma AppStepNeverCreates(s: AppState, e: Event)
    requires InBounds(s)
    ensures AppStep(s, e).state.manager.isCreated == s.manager.isCreated
    ensures Count(AppStep(s, e).calls, SharedInstance) == Count(AppStep(s, e).calls, Start)
  {
    if e == TapAdvance && s.currentViewIndex < |Views| - 1 {
      var actions := AppearActions(Views[s.currentViewIndex + 1].view);
      assert Create !in actions;
      RunFlags(s.manager, actions);
      RunSdkCalls(s.manager, actions);
    }
  }

  /** One input calls `start` exactly when it turns `isConfigured` on. */
  lemma AppStepStarts(s: AppState, e: Event)
    requires InBounds(s)
    ensures Count(AppStep(s, e).calls, Start)
            == Ord(AppStep(s, e).state.manager.isConfigured) - Ord(s.manager.isConfigured)
  {
    if e == TapAdvance && s.currentViewIndex < |Views| - 1 {
      RunSdkCalls(s.manager, AppearActions(Views[s.currentViewIndex + 1].view));
    }
  }

  /** Whatever the user presses, `start` is called at most once. */
  lemma {:induction false} AppRunStartsAtMostOnce(s: AppState, events: seq<Event>)
    requires InBounds(s)
    ensures Count(AppRun(s, events).calls, Start)
            == Ord(AppRun(s, events).state.manager.isConfigured) - Ord(s.manager.isConfigured)
    ensures Count(AppRun(s, events).calls, Start) <= 1
    decreases |events|
  {
    if events != [] {
      var first := AppStep(s, events[0]);
      var rest := AppRun(first.state, events[1..]);
      AppRunStartsAtMostOnce(first.state, events[1..]);
      CountAppend(first.calls, rest.calls, Start);
      AppStepStarts(s, events[0]);
    }
  }

  /** Each press of the walk as shipped, one at a time. */
  lemma ShippedSteps()
    ensures AppStep(Launch, TapAdvance) == Transition(AppState(1, Initial), [])
    ensures AppStep(AppState(1, Initial), TapAdvance) == Transition(AppState(2, Initial), [])
    ensures AppStep(AppState(2, Initial), TapAdvance)
            == Transition(AppState(3, ManagerState(false, true, false)), [SharedInstance, Start])
    ensures AppStep(AppState(3, ManagerState(false, true, false)), TapAdvance)
            == Transition(AppState(4, ManagerState(false, true, false)), [])
    ensures AppStep(AppState(4, ManagerState(false, true, false)), TapToggleBanner)
            == Transition(AppState(4, ManagerState(false, true, true)), [])
  {
    assert [Configure][1..] == [];
  }

  /** The walk as shipped: three presses reach "Initialize SDK", whose
      appearance configures a manager that was never created; a fourth
      press reaches the last step, after which only the caption is shown,
      and toggling there puts the banner on screen. */
  lemma ShippedWalkthrough()
    ensures AppRun(Launch, [TapAdvance, TapAdvance, TapAdvance])
            == Transition(AppState(3, ManagerState(false, true, false)), [SharedInstance, Start])
    ensures AppRun(Launch, [TapAdvance, TapAdvance, TapAdvance, TapAdvance, TapToggleBanner])
            == Transition(AppState(4, ManagerState(false, true, true)), [SharedInstance, Start])
    ensures AdvanceViewIndex(4) == Caption("Final View reached.")
    ensures ConditionalBannerView(ManagerState(false, true, true)) == BannerView
  {
    ShippedSteps();
    var configured := AppState(3, ManagerState(false, true, false));
    var last := AppState(4, ManagerState(false, true, false));
    var shown := AppState(4, ManagerState(false, true, true));
    assert AppRun(shown, []) == Transition(shown, []);
    assert AppRun(last, [TapToggleBanner]) == Transition(shown, []);
    assert AppRun(configured, [TapAdvance, TapToggleBanner]) == Transition(shown, []);
    assert AppRun(configured, []) == Transition(configured, []);
    assert AppRun(AppState(2, Initial), [TapAdvance]) == Transition(configured, [SharedInstance, Start]);
    assert AppRun(AppState(1, Initial), [TapAdvance, TapAdvance])
           == Transition(configured, [SharedInstance, Start]);
    assert AppRun(AppState(2, Initial), [TapAdvance, TapAdvance, TapToggleBanner])
           == Transition(shown, [SharedInstance, Start]);
    assert AppRun(AppState(1, Initial), [TapAdvance, TapAdvance, TapAdvance, TapToggleBanner])
           == Transition(shown, [SharedInstance, Start]);
  }

  /** The application: the shared manager and the index of the step shown. */
  class OnboardingApp {
    const manager: AdMobManager
    var currentViewIndex: nat

    ghost predicate Valid()
      reads this
    {
      currentViewIndex < |Views|
    }

    function Snapshot(): AppState
      reads this, manager
    {
      AppState(currentViewIndex, manager.State())
    }

    constructor ()
      ensures Valid() && fresh(manager)
      ensures Snapshot() == Launch && manager.sdkCalls == []
    {
      manager := new AdMobManager();
      currentViewIndex := 0;
    }

    /** The step on screen, `views[currentViewIndex]`. */
    function CurrentView(): (v: NamedView)
      reads this
      requires Valid()
      ensures v in Views
    {
      Views[currentViewIndex]
    }

    /** Runs the `onAppear` of `screen` against the manager. */
    method Appear(screen: Screen)
      modifies manager`isCreated, manager`isConfigured, manager`sdkCalls
      ensures manager.State() == Run(old(manager.State()), AppearActions(screen)).state
      ensures manager.sdkCalls == old(manager.sdkCalls) + Run(old(manager.State()), AppearActions(screen)).calls
    {
      match screen {
        case CreateObjectView =>
          manager.CreateSdkObject();
        case InitializeSDKView =>
          manager.Configure();
        case _ =>
      }
    }

    /** Pressing "Go to": the next step is shown and its `onAppear` runs. */
    method Advance()
      requires Valid() && AdvanceViewIndex(currentViewIndex).GoToButton?
      modifies this`currentViewIndex, manager`isCreated, manager`isConfigured, manager`sdkCalls
      ensures Valid() && currentViewIndex == old(currentViewIndex) + 1
      ensures Snapshot() == AppStep(old(Snapshot()), TapAdvance).state
      ensures manager.sdkCalls == old(manager.sdkCalls) + AppStep(old(Snapshot()), TapAdvance).calls
    {
      currentViewIndex := currentViewIndex + 1;
      Appear(Views[currentViewIndex].view);
    }

    /** Pressing "Toggle Banner" on the basic-functionality step. */
    method PressToggleBanner()
      requires Valid() && CurrentView().view == BasicFunctionalityView
      modifies manager`canShowBanner
      ensures Valid() && currentViewIndex == old(currentViewIndex)
      ensures Snapshot() == AppStep(old(Snapshot()), TapToggleBanner).state
    {
      manager.ToggleBanner();
    }
  }

  /** The shipped app driven through every step and the banner toggled on:
      the SDK ends up configured and showing a banner although the SDK
      object was never created. */
  method ShippedOnboarding() returns (created: bool, configured: bool, banner: BannerSlot)
    ensures !created && configured && banner == BannerView
  {
    ShippedSteps();
    var app := new OnboardingApp();
    app.Advance();
    app.Advance();
    app.Advance();
    app.Advance();
    app.PressToggleBanner();
    created, configured := app.manager.isCreated, app.manager.isConfigured;
    banner := ConditionalBannerView(app.manager.State());
  }
}

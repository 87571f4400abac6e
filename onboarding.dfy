/** The AdMob manager: three flags that the onboarding screens switch on
    through guarded operations, and the calls into the ads SDK those
    operations make.  The SDK itself is not modelled; each call it receives
    is recorded as an `SdkCall` so that the model can count them. */
module Onboarding {
  import opened Display

  /** A call into the ads SDK: `GADMobileAds.sharedInstance()` or its `start`. */
  datatype SdkCall = SharedInstance | Start

  /** The manager's three published flags. */
  datatype ManagerState = ManagerState(isCreated: bool, isConfigured: bool, canShowBanner: bool)

  /** The three operations a screen can invoke on the manager. */
  datatype Action = Create | Configure | Toggle

  /** A manager state together with the SDK calls made on the way to it. */
  datatype Step = Step(state: ManagerState, calls: seq<SdkCall>)

  /** A freshly created manager: every flag is off. */
  const Initial := ManagerState(false, false, false)

  /** What the manager's banner slot renders. */
  datatype BannerSlot = EmptyView | BannerView

  function Ord(b: bool): nat { if b then 1 else 0 }

  predicate Odd(n: nat) { n % 2 == 1 }

  /** Number of occurrences of `x` in `xs`. */
  function Count<T(==)>(xs: seq<T>, x: T): (n: nat)
    ensures n <= |xs|
  {
    if xs == [] then 0 else Ord(xs[0] == x) + Count(xs[1..], x)
  }

  lemma {:induction false} CountZero<T>(xs: seq<T>, x: T)
    ensures Count(xs, x) == 0 <==> x !in xs
    decreases |xs|
  {
    if xs != [] {
      CountZero(xs[1..], x);
      assert xs == [xs[0]] + xs[1..];
    }
  }

  lemma {:induction false} CountAppend<T>(xs: seq<T>, ys: seq<T>, x: T)
    ensures Count(xs + ys, x) == Count(xs, x) + Count(ys, x)
  {
    if xs == [] {
      assert xs + ys == ys;
    } else {
      assert (xs + ys)[1..] == xs[1..] + ys;
      CountAppend(xs[1..], ys, x);
    }
  }

  /** `createSdkObject`: skipped once created, otherwise obtains the SDK
      singleton and records that it exists. */
  function CreateSdkObjectStep(s: ManagerState): (r: Step)
    ensures r.state.isCreated
    ensures r.state.isConfigured == s.isConfigured && r.state.canShowBanner == s.canShowBanner
    ensures r.calls == [] <==> s.isCreated
    ensures Start !in r.calls && |r.calls| <= 1
  {
    if s.isCreated then Step(s, [])
    else Step(s.(isCreated := true), [SharedInstance])
  }

  /** `configure`: skipped once configured, otherwise starts the SDK and
      records that it is configured.  It does not look at `isCreated`. */
  function ConfigureStep(s: ManagerState): (r: Step)
    ensures r.state.isConfigured
    ensures r.state.isCreated == s.isCreated && r.state.canShowBanner == s.canShowBanner
    ensures r.calls == [] <==> s.isConfigured
    ensures Count(r.calls, Start) == 1 - Ord(s.isConfigured)
  {
    if s.isConfigured then Step(s, [])
    else Step(s.(isConfigured := true), [SharedInstance, Start])
  }

  /** `toggleBanner`: flips the banner flag, with no guard and no SDK call. */
  function ToggleBannerStep(s: ManagerState): (r: Step)
    ensures r.state.canShowBanner != s.canShowBanner
    ensures r.state.isCreated == s.isCreated && r.state.isConfigured == s.isConfigured
    ensures r.calls == []
  {
    Step(s.(canShowBanner := !s.canShowBanner), [])
  }

  function Apply(s: ManagerState, a: Action): Step
  {
    match a
    case Create => CreateSdkObjectStep(s)
    case Configure => ConfigureStep(s)
    case Toggle => ToggleBannerStep(s)
  }

  /** The manager after the operations `actions`, in order, and every SDK
      call they made. */
  function Run(s: ManagerState, actions: seq<Action>): Step
    decreases |actions|
  {
    if actions == [] then Step(s, [])
    else
      var first := Apply(s, actions[0]);
      var rest := Run(first.state, actions[1..]);
      Step(rest.state, first.calls + rest.calls)
  }

  /** `conditionalBannerView`: the banner is produced only when the SDK is
      configured and the banner flag is set. */
  function ConditionalBannerView(s: ManagerState): (v: BannerSlot)
    ensures v == BannerView <==> s.isConfigured && s.canShowBanner
    ensures v == EmptyView <==> !s.isConfigured || !s.canShowBanner
  {
    if s.isConfigured && s.canShowBanner then BannerView else EmptyView
  }

  /** `statusMessage`: a green tick or a red cross with a caption, chosen by
      `isConfigured` alone. */
  function StatusMessage(s: ManagerState): (m: StatusLine)
    ensures m.Badge?
    ensures m.text == "AdMob is configured" <==> s.isConfigured
    ensures m.text == "AdMob is not configured" <==> !s.isConfigured
    ensures m.color == Green <==> s.isConfigured
    ensures m.color == Red <==> !s.isConfigured
    ensures m.icon == (if s.isConfigured then "checkmark.circle" else "xmark.circle")
  {
    if s.isConfigured then Badge("checkmark.circle", Green, "AdMob is configured")
    else Badge("xmark.circle", Red, "AdMob is not configured")
  }

  /** A second `createSdkObject` changes nothing and makes no SDK call. */
  lemma CreateSdkObjectIdempotent(s: ManagerState)
    ensures Run(s, [Create, Create]) == Run(s, [Create])
    ensures Run(s, [Create]).state.isCreated
  {
  }

  /** A second `configure` changes nothing and does not start the SDK again. */
  lemma ConfigureIdempotent(s: ManagerState)
    ensures Run(s, [Configure, Configure]) == Run(s, [Configure])
    ensures Run(s, [Configure]).state.isConfigured
  {
  }

  /** Two toggles restore the state and make no SDK call. */
  lemma ToggleBannerInvolution(s: ManagerState)
    ensures Run(s, [Toggle, Toggle]) == Step(s, [])
  {
  }

  /** Once set, `isCreated` and `isConfigured` stay set; each becomes set
      exactly when its operation occurs. */
  lemma {:induction false} RunFlags(s: ManagerState, actions: seq<Action>)
    ensures Run(s, actions).state.isCreated <==> s.isCreated || Create in actions
    ensures Run(s, actions).state.isConfigured <==> s.isConfigured || Configure in actions
    decreases |actions|
  {
    if actions != [] {
      RunFlags(Apply(s, actions[0]).state, actions[1..]);
      assert actions == [actions[0]] + actions[1..];
    }
  }

  /** The banner flag is the initial flag flipped once per `toggleBanner`. */
  lemma {:induction false} RunBannerFlag(s: ManagerState, actions: seq<Action>)
    ensures Run(s, actions).state.canShowBanner == (s.canShowBanner != Odd(Count(actions, Toggle)))
    decreases |actions|
  {
    if actions != [] {
      var first := Apply(s, actions[0]);
      RunBannerFlag(first.state, actions[1..]);
      var n := Count(actions[1..], Toggle);
      if actions[0] == Toggle {
        assert Count(actions, Toggle) == n + 1;
        assert Odd(n + 1) == !Odd(n);
        assert first.state.canShowBanner == !s.canShowBanner;
      } else {
        assert Count(actions, Toggle) == n;
        assert first.state.canShowBanner == s.canShowBanner;
      }
    }
  }

  /** `start` has been called once per transition of `isConfigured` from
      false to true, and `sharedInstance()` once per transition of either
      guard flag: every guarded side effect happens at most once. */
  lemma {:induction false} RunSdkCalls(s: ManagerState, actions: seq<Action>)
    ensures var r := Run(s, actions);
      && Count(r.calls, Start) == Ord(r.state.isConfigured) - Ord(s.isConfigured)
      && Count(r.calls, SharedInstance)
         == Ord(r.state.isCreated) - Ord(s.isCreated) + Ord(r.state.isConfigured) - Ord(s.isConfigured)
    decreases |actions|
  {
    if actions != [] {
      var first := Apply(s, actions[0]);
      var rest := Run(first.state, actions[1..]);
      RunSdkCalls(first.state, actions[1..]);
      RunFlags(first.state, actions[1..]);
      CountAppend(first.calls, rest.calls, Start);
      CountAppend(first.calls, rest.calls, SharedInstance);
      assert Count(first.calls, Start) == Ord(first.state.isConfigured) - Ord(s.isConfigured);
      assert Count(first.calls, SharedInstance)
        == Ord(first.state.isCreated) - Ord(s.isCreated) + Ord(first.state.isConfigured) - Ord(s.isConfigured);
    }
  }

  /** Whatever the screens do, the SDK is started at most once, and never
      by a manager that is already configured. */
  lemma StartAtMostOnce(s: ManagerState, actions: seq<Action>)
    ensures Count(Run(s, actions).calls, Start) <= 1
    ensures s.isConfigured ==> Start !in Run(s, actions).calls
    ensures Start in Run(s, actions).calls <==> !s.isConfigured && Configure in actions
  {
    RunSdkCalls(s, actions);
    RunFlags(s, actions);
    CountZero(Run(s, actions).calls, Start);
  }

  /** From a fresh manager, the banner is on screen exactly when `configure`
      has run and the flag has been toggled an odd number of times; toggling
      before configuring leaves the slot empty. */
  lemma BannerAfterRun(actions: seq<Action>)
    ensures ConditionalBannerView(Run(Initial, actions).state) == BannerView
            <==> Configure in actions && Odd(Count(actions, Toggle))
  {
    RunFlags(Initial, actions);
    RunBannerFlag(Initial, actions);
  }

  /** The manager object shared by every screen. */
  class AdMobManager {
    var isCreated: bool
    var isConfigured: bool
    var canShowBanner: bool
    /** Every SDK call this manager has made, oldest first. */
    ghost var sdkCalls: seq<SdkCall>

    function State(): ManagerState
      reads this
    {
      ManagerState(isCreated, isConfigured, canShowBanner)
    }

    constructor ()
      ensures State() == Initial
      ensures !isCreated && !isConfigured && !canShowBanner
      ensures sdkCalls == []
    {
      isCreated, isConfigured, canShowBanner := false, false, false;
      sdkCalls := [];
    }

    method CreateSdkObject()
      modifies this`isCreated, this`sdkCalls
      ensures State() == CreateSdkObjectStep(old(State())).state
      ensures sdkCalls == old(sdkCalls) + CreateSdkObjectStep(old(State())).calls
      ensures isCreated
      ensures old(isCreated) ==> sdkCalls == old(sdkCalls)
    {
      if isCreated {
        return;
      }
      sdkCalls := sdkCalls + [SharedInstance];
      isCreated := true;
    }

    method Configure()
      modifies this`isConfigured, this`sdkCalls
      ensures State() == ConfigureStep(old(State())).state
      ensures sdkCalls == old(sdkCalls) + ConfigureStep(old(State())).calls
      ensures isConfigured
      ensures old(isConfigured) ==> sdkCalls == old(sdkCalls)
    {
      if isConfigured {
        return;
      }
      sdkCalls := sdkCalls + [SharedInstance, Start];
      isConfigured := true;
    }

    method ToggleBanner()
      modifies this`canShowBanner
      ensures State() == ToggleBannerStep(old(State())).state
      ensures canShowBanner == !old(canShowBanner)
    {
      canShowBanner := !canShowBanner;
    }
  }
}

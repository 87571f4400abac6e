/** The consent screen's decisions: how a consent status is shown, whether
    the advertising identifier may be read, and what the completion handlers
    of the consent SDK do with the error and status they receive.  The SDK
    calls themselves are not modelled; their results are parameters. */
module Consent {
  import opened Wrappers
  import opened Display

  /** The consent SDK's status.  `Unrecognized` stands for any case a later
      SDK version may add, which the source's `@unknown default` catches. */
  datatype ConsentStatus = Unknown | Required | NotRequired | Obtained | Unrecognized

  /** `parseConsentStatus`: every known status gets its own icon, tint and
      caption; anything else shows the bare caption "default". */
  function ParseConsentStatus(status: ConsentStatus): (line: StatusLine)
    ensures line.Plain? <==> status.Unrecognized?
    ensures status.Unrecognized? ==> line.text == "default"
    ensures line.Badge? && line.color == Green <==> status == Obtained
    ensures line.Badge? && line.color == Yellow <==> status == Unknown
    ensures line.Badge? && line.color == Black <==> status == Required || status == NotRequired
    ensures line.text == match status
      case Obtained => "consent obtained"
      case Unknown => "consent unknown"
      case Required => "consent required"
      case NotRequired => "consent not required"
      case Unrecognized => "default"
    ensures line.Badge? ==> line.icon == match status
      case Obtained => "checkmark.circle"
      case Unknown => "questionmark.circle"
      case Required => "exclamationmark"
      case NotRequired => "questionmark.exclamationmark"
      case Unrecognized => ""
  {
    match status
    case Obtained => Badge("checkmark.circle", Green, "consent obtained")
    case Unknown => Badge("questionmark.circle", Yellow, "consent unknown")
    case Required => Badge("exclamationmark", Black, "consent required")
    case NotRequired => Badge("questionmark.exclamationmark", Black, "consent not required")
    case Unrecognized => Plain("default")
  }

  /** No two statuses share a caption, so the caption identifies the status. */
  lemma ParseConsentStatusInjective(a: ConsentStatus, b: ConsentStatus)
    requires a != b
    ensures ParseConsentStatus(a).text != ParseConsentStatus(b).text
    ensures ParseConsentStatus(a) != ParseConsentStatus(b)
  {
  }

  /** App Tracking Transparency's authorization states. */
  datatype TrackingAuthorization = NotDetermined | Restricted | Denied | Authorized

  /** What the device offers: on iOS 14 and later the tracking authorization,
      before it the advertising-tracking switch. */
  datatype TrackingEnvironment =
    | Ios14OrLater(authorization: TrackingAuthorization)
    | BeforeIos14(advertisingTrackingEnabled: bool)

  /** `getIDFA`: the literal "nil" unless tracking is authorized (iOS 14 and
      later) or enabled (earlier systems), else the identifier's UUID string. */
  function GetIdfa(env: TrackingEnvironment, uuidString: string): (r: Option<string>)
    ensures r.Some?
    ensures env.Ios14OrLater? && env.authorization != Authorized ==> r == Some("nil")
    ensures env.BeforeIos14? && !env.advertisingTrackingEnabled ==> r == Some("nil")
    ensures env == Ios14OrLater(Authorized) || env == BeforeIos14(true) ==> r == Some(uuidString)
  {
    if env.Ios14OrLater? && env.authorization != Authorized then Some("nil")
    else if env.BeforeIos14? && !env.advertisingTrackingEnabled then Some("nil")
    else Some(uuidString)
  }

  /** The caption under "Request IDFA tracking", `getIDFA()!`: the unwrap
      never fails. */
  function IdfaCaption(env: TrackingEnvironment, uuidString: string): (caption: string)
    ensures caption == "nil" || caption == uuidString
  {
    GetIdfa(env, uuidString).value
  }

  /** The observable effects on the consent screen. */
  datatype ConsentEffect =
    | RequestConsentInfoUpdate  // the request is issued
    | RefreshStatus             // the status row is re-parsed from the SDK's status
    | LogUpdateError            // the update failed; only logged
    | LoadForm                  // `UMPConsentForm.load` is called
    | LogLoadError              // the load failed; only logged
    | PresentForm               // the loaded form is presented

  type ErrorDescription = string

  /** Completion of `requestConsentInfoUpdate`: the form is loaded only when
      there is no error; an error is only logged. */
  function OnConsentInfoUpdated(error: Option<ErrorDescription>): (effects: seq<ConsentEffect>)
    ensures LoadForm in effects <==> error.None?
    ensures error.Some? ==> effects == [LogUpdateError]
    ensures error.None? ==> effects == [LoadForm]
    ensures PresentForm !in effects && RefreshStatus !in effects
  {
    if error.Some? then [LogUpdateError] else [LoadForm]
  }

  /** Completion of `UMPConsentForm.load`: a load error is logged and the
      status row refreshed; otherwise the form, if one came back, is
      presented when the status is `required`. */
  function OnFormLoaded(loadError: Option<ErrorDescription>, formAvailable: bool, status: ConsentStatus)
    : (effects: seq<ConsentEffect>)
    ensures PresentForm in effects <==> loadError.None? && formAvailable && status == Required
    ensures loadError.Some? ==> effects == [LogLoadError, RefreshStatus]
    ensures loadError.None? ==> effects == if formAvailable && status == Required then [PresentForm] else []
    ensures LoadForm !in effects && RequestConsentInfoUpdate !in effects
  {
    if loadError.Some? then [LogLoadError, RefreshStatus]
    else if status == Required && formAvailable then [PresentForm]
    else []
  }

  /** Completion of the form's presentation: the status row is refreshed, and
      refreshed once more when consent is now obtained. */
  function OnFormDismissed(status: ConsentStatus): (effects: seq<ConsentEffect>)
    ensures forall i :: 0 <= i < |effects| ==> effects[i] == RefreshStatus
    ensures |effects| == if status == Obtained then 2 else 1
  {
    [RefreshStatus] + (if status == Obtained then [RefreshStatus] else [])
  }

  /** The consent SDK's answers during one press of "Request consent form". */
  datatype SdkAnswers = SdkAnswers(
    updateError: Option<ErrorDescription>,
    loadError: Option<ErrorDescription>,
    formAvailable: bool,
    statusAtLoad: ConsentStatus,
    statusAfterDismiss: ConsentStatus)

  /** `showConsentInformation` followed by every completion it leads to.  The
      status row is refreshed right after the request is issued, before the
      asynchronous completion runs. */
  function ShowConsentInformation(answers: SdkAnswers): (effects: seq<ConsentEffect>)
    ensures |effects| >= 3 && effects[..2] == [RequestConsentInfoUpdate, RefreshStatus]
  {
    var afterUpdate := OnConsentInfoUpdated(answers.updateError);
    var afterLoad :=
      if LoadForm in afterUpdate
      then OnFormLoaded(answers.loadError, answers.formAvailable, answers.statusAtLoad)
      else [];
    var afterDismiss :=
      if PresentForm in afterLoad then OnFormDismissed(answers.statusAfterDismiss) else [];
    [RequestConsentInfoUpdate, RefreshStatus] + afterUpdate + afterLoad + afterDismiss
  }

  /** The form is loaded exactly when the update succeeded, and presented
      exactly when, in addition, the load succeeded, a form came back and
      consent is required. */
  lemma ShowConsentInformationDecisions(answers: SdkAnswers)
    ensures LoadForm in ShowConsentInformation(answers) <==> answers.updateError.None?
    ensures PresentForm in ShowConsentInformation(answers)
            <==> && answers.updateError.None?
                 && answers.loadError.None?
                 && answers.formAvailable
                 && answers.statusAtLoad == Required
    ensures answers.updateError.Some?
            ==> ShowConsentInformation(answers) == [RequestConsentInfoUpdate, RefreshStatus, LogUpdateError]
  {
  }
}

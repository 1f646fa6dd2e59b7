/**
 * The foreground notification shown while a DashPay identity is created: the
 * creation record, as it changes, selects a step of the notification and its
 * progress bar.
 */
module IdentityNotification {
  import opened Wrappers

  /** The states of an identity creation, in pipeline order; `Unlisted` stands
      for any state the observer does not name. */
  datatype CreationState =
    | UpgradingWallet
    | CreditFundingTxCreating
    | CreditFundingTxSending
    | CreditFundingTxSent
    | CreditFundingTxConfirmed
    | IdentityRegistering
    | IdentityRegistered
    | PreorderRegistering
    | PreorderRegistered
    | UsernameRegistering
    | UsernameRegistered
    | Unlisted

  /** The stored creation record. */
  datatype CreationRecord = CreationRecord(state: CreationState, error: bool)

  /** The string resources the notification uses. */
  datatype StringRes =
    | ProcessingHomeTitle
    | ProcessingHomeStep1
    | ProcessingHomeStep2
    | ProcessingHomeStep3
    | ProcessingDoneSubtitle
    | ProcessingErrorTitle

  /** A progress bar: its maximum, its progress and whether it is indeterminate. */
  datatype ProgressBar = ProgressBar(max: int, progress: int, indeterminate: bool)

  /** A notification: title, content text (none when the message resource is
      0) and progress bar. */
  datatype Notification = Notification(title: StringRes, message: Option<StringRes>, bar: ProgressBar)

  datatype Step = Step1 | Step2 | Step3 | Done | Failed

  /** The progress-bar choice of `createNotification`. */
  function Bar(progressMax: int, progress: int): (bar: ProgressBar)
    ensures bar.indeterminate <==> progressMax == -1
    ensures progressMax > 0 ==> bar.max == progressMax && bar.progress == progress
    ensures !bar.indeterminate && progressMax <= 0 ==> bar.max == 0 && bar.progress == 0
  {
    if progressMax == -1 then ProgressBar(100, 0, true)
    else if progressMax > 0 then ProgressBar(progressMax, progress, false)
    else ProgressBar(0, 0, false)
  }

  /** `createNotification`; `message` is None for the resource id 0. */
  function CreateNotification(title: StringRes, message: Option<StringRes>, progressMax: int, progress: int): (n: Notification)
    ensures n.title == title && n.message == message
    ensures n.bar.indeterminate <==> progressMax == -1
  {
    Notification(title, message, Bar(progressMax, progress))
  }

  /** The notification the service starts with. */
  function InitialNotification(): (n: Notification)
    ensures n.title == ProcessingHomeTitle && n.message.None? && n.bar.indeterminate
  {
    CreateNotification(ProcessingHomeTitle, None, -1, 0)
  }

  /** The `display*` functions: the notification each step posts. */
  function Display(step: Step): (n: Notification)
    ensures !n.bar.indeterminate
    ensures n.message == Some(ProcessingErrorTitle) <==> step == Failed
    ensures n.bar.max == 4 <==> step != Done && step != Failed
    ensures n.bar.max == 4 ==> n.bar.progress == StepNumber(step)
  {
    match step
    case Step1 => CreateNotification(ProcessingHomeTitle, Some(ProcessingHomeStep1), 4, 1)
    case Step2 => CreateNotification(ProcessingHomeTitle, Some(ProcessingHomeStep2), 4, 2)
    case Step3 => CreateNotification(ProcessingHomeTitle, Some(ProcessingHomeStep3), 4, 3)
    case Done => CreateNotification(ProcessingDoneSubtitle, None, 0, 0)
    case Failed => CreateNotification(ProcessingHomeTitle, Some(ProcessingErrorTitle), 0, 0)
  }

  /** The observer's dispatch: an erroneous record shows the error, otherwise
      the state selects a step; no record, or an unlisted state, selects
      nothing. */
  function StepFor(record: Option<CreationRecord>): (r: Option<Step>)
    ensures r == Some(Failed) <==> record.Some? && record.value.error
    ensures r.None? <==> record.None? || (!record.value.error && record.value.state == Unlisted)
  {
    if record.Some? && record.value.error then Some(Failed)
    else if record.None? then None
    else
      match record.value.state
      case UpgradingWallet | CreditFundingTxCreating | CreditFundingTxSending
         | CreditFundingTxSent | CreditFundingTxConfirmed => Some(Step1)
      case IdentityRegistering | IdentityRegistered => Some(Step2)
      case PreorderRegistering | PreorderRegistered | UsernameRegistering => Some(Step3)
      case UsernameRegistered => Some(Done)
      case Unlisted => None
  }

  /** The notification posted for a new record, if any. */
  function OnRecord(record: Option<CreationRecord>): (n: Option<Notification>)
    ensures n.Some? <==> StepFor(record).Some?
    ensures n.Some? ==> !n.value.bar.indeterminate
  {
    match StepFor(record)
    case Some(step) => Some(Display(step))
    case None => None
  }

  /** Position of a listed state in the pipeline. */
  function Rank(s: CreationState): nat
  {
    match s
    case UpgradingWallet => 0
    case CreditFundingTxCreating => 1
    case CreditFundingTxSending => 2
    case CreditFundingTxSent => 3
    case CreditFundingTxConfirmed => 4
    case IdentityRegistering => 5
    case IdentityRegistered => 6
    case PreorderRegistering => 7
    case PreorderRegistered => 8
    case UsernameRegistering => 9
    case UsernameRegistered => 10
    case Unlisted => 11
  }

  /** How far a step is: 1, 2 or 3 of 4, and 4 when done. */
  function StepNumber(step: Step): nat
  {
    match step
    case Step1 => 1
    case Step2 => 2
    case Step3 => 3
    case Done => 4
    case Failed => 0
  }

  // Properties.

  /** The three progress-bar modes. */
  lemma BarModes(progressMax: int, progress: int)
    ensures Bar(progressMax, progress).indeterminate <==> progressMax == -1
    ensures progressMax == -1 ==> Bar(progressMax, progress) == ProgressBar(100, 0, true)
    ensures progressMax > 0 ==> Bar(progressMax, progress) == ProgressBar(progressMax, progress, false)
    ensures progressMax != -1 && progressMax <= 0 ==> Bar(progressMax, progress) == ProgressBar(0, 0, false)
  {
  }

  /** An erroneous record shows the error step, whatever its state. */
  lemma ErrorWins(record: CreationRecord)
    requires record.error
    ensures OnRecord(Some(record)) == Some(Notification(ProcessingHomeTitle, Some(ProcessingErrorTitle), ProgressBar(0, 0, false)))
  {
  }

  /** The listed states select the steps the pipeline order suggests. */
  lemma StepsOfStates(s: CreationState)
    ensures Rank(s) <= 4 ==> StepFor(Some(CreationRecord(s, false))) == Some(Step1)
    ensures 5 <= Rank(s) <= 6 ==> StepFor(Some(CreationRecord(s, false))) == Some(Step2)
    ensures 7 <= Rank(s) <= 9 ==> StepFor(Some(CreationRecord(s, false))) == Some(Step3)
    ensures s == UsernameRegistered ==>
      OnRecord(Some(CreationRecord(s, false))) == Some(Notification(ProcessingDoneSubtitle, None, ProgressBar(0, 0, false)))
    ensures s == Unlisted ==> OnRecord(Some(CreationRecord(s, false))) == None
  {
  }

  /** A step shows "n of 4": the bar is determinate at n out of 4. */
  lemma StepBars(step: Step)
    requires step in {Step1, Step2, Step3}
    ensures Display(step).bar == ProgressBar(4, StepNumber(step), false)
    ensures Display(step).message.Some? && Display(step).title == ProcessingHomeTitle
  {
  }

  /** Progress never goes back while the pipeline advances without error. */
  lemma StepsMonotone(s1: CreationState, s2: CreationState)
    requires s1 != Unlisted && s2 != Unlisted && Rank(s1) <= Rank(s2)
    ensures StepFor(Some(CreationRecord(s1, false))).Some? && StepFor(Some(CreationRecord(s2, false))).Some?
    ensures StepNumber(StepFor(Some(CreationRecord(s1, false))).value) <= StepNumber(StepFor(Some(CreationRecord(s2, false))).value)
  {
  }

  /** The initial notification has an indeterminate bar and no content text,
      as has the done notification; no record posts nothing. */
  lemma InitialAndDone()
    ensures InitialNotification() == Notification(ProcessingHomeTitle, None, ProgressBar(100, 0, true))
    ensures Display(Done).message == None
    ensures OnRecord(None) == None
  {
  }
}

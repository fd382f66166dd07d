/**
 * The recording page: a consent question gating a record button.
 *
 * `hasAgreed` is three-valued (`null` before the question is answered,
 * `true` after "Yes", `false` after "No"); `isRecording` is flipped by the
 * record button; `recordingTime` is declared but no code ever changes it.
 */
module RecordingPage {
  import opened Options
  import opened TimeFormat

  /** `hasAgreed`: `null`, `true` or `false`. */
  datatype Consent = Unanswered | Granted | Denied

  /** The three mutually exclusive panels under the welcome message. */
  datatype Panel = AgreementQuestion | RecordingDenied | RecordingInterface

  /** Each panel's rendering condition, as written (`hasAgreed === null`, `=== false`, `=== true`). */
  predicate ShowsPanel(c: Consent, p: Panel)
  {
    match p
    case AgreementQuestion => c == Unanswered
    case RecordingDenied => c == Denied
    case RecordingInterface => c == Granted
  }

  /** For every consent value exactly one panel is shown. */
  function PanelShown(c: Consent): (p: Panel)
    ensures ShowsPanel(c, p)
    ensures forall q :: ShowsPanel(c, q) ==> q == p
  {
    match c
    case Unanswered => AgreementQuestion
    case Denied => RecordingDenied
    case Granted => RecordingInterface
  }

  /** The page's local state. */
  datatype Session = Session(hasAgreed: Consent, isRecording: bool, recordingTime: nat)

  const Initial := Session(Unanswered, false, 0)

  /** `handleAgreement(agreed)`: record the answer; "Yes" also starts recording. */
  function Agree(s: Session, agreed: bool): Session
  {
    if agreed then s.(hasAgreed := Granted, isRecording := true)
    else s.(hasAgreed := Denied)
  }

  /** `toggleRecording`: flip `isRecording`. */
  function Toggle(s: Session): Session
  {
    s.(isRecording := !s.isRecording)
  }

  /** The "Try Again" handler: `setHasAgreed(null)`. */
  function Retry(s: Session): Session
  {
    s.(hasAgreed := Unanswered)
  }

  /** The buttons of the page that change its state. */
  datatype Control = YesButton | NoButton | TryAgainButton | RecordButton

  /** A control can be pressed only while the panel that holds it is rendered. */
  predicate Offered(s: Session, b: Control)
  {
    match b
    case YesButton => ShowsPanel(s.hasAgreed, AgreementQuestion)
    case NoButton => ShowsPanel(s.hasAgreed, AgreementQuestion)
    case TryAgainButton => ShowsPanel(s.hasAgreed, RecordingDenied)
    case RecordButton => ShowsPanel(s.hasAgreed, RecordingInterface)
  }

  /** Pressing a control: its handler runs if the control is on screen; otherwise nothing happens. */
  function Step(s: Session, b: Control): Session
  {
    if !Offered(s, b) then s
    else match b
      case YesButton => Agree(s, true)
      case NoButton => Agree(s, false)
      case TryAgainButton => Retry(s)
      case RecordButton => Toggle(s)
  }

  /** The state after pressing the controls `bs` in order. */
  function Run(s: Session, bs: seq<Control>): Session
    decreases |bs|
  {
    if bs == [] then s else Run(Step(s, bs[0]), bs[1..])
  }

  /** The reachable-state invariant: recording only with consent, and the timer never moves. */
  predicate Inv(s: Session)
  {
    (s.isRecording ==> s.hasAgreed == Granted) && s.recordingTime == 0
  }

  /** The timer text: shown only inside the recording interface while recording. */
  function TimerText(s: Session): Option<string>
  {
    if ShowsPanel(s.hasAgreed, RecordingInterface) && s.isRecording
    then Some(FormatTime(s.recordingTime))
    else None
  }

  lemma InitialIsValid()
    ensures Inv(Initial) && PanelShown(Initial.hasAgreed) == AgreementQuestion
  {
  }

  /** Answering "No" denies and does not record; answering "Yes" grants and records. */
  lemma AnswerOutcomes(s: Session)
    requires Inv(s) && s.hasAgreed == Unanswered
    ensures Step(s, NoButton) == Session(Denied, false, s.recordingTime)
    ensures Step(s, YesButton) == Session(Granted, true, s.recordingTime)
  {
  }

  /** "Try Again" is on screen only after a refusal, and returns to the question. */
  lemma RetryOnlyFromDenied(s: Session)
    ensures Offered(s, TryAgainButton) <==> s.hasAgreed == Denied
    ensures s.hasAgreed == Denied ==> Step(s, TryAgainButton).hasAgreed == Unanswered
    ensures s.hasAgreed == Denied ==> Step(s, TryAgainButton).isRecording == s.isRecording
  {
  }

  /** The record button flips `isRecording`, keeps the consent, and undoes itself. */
  lemma ToggleInvolution(s: Session)
    ensures Toggle(s).isRecording == !s.isRecording && Toggle(s).hasAgreed == s.hasAgreed
    ensures Toggle(Toggle(s)) == s
  {
  }

  /** Once granted, consent stays granted whatever is pressed afterwards. */
  lemma {:induction false} GrantedIsFinal(s: Session, bs: seq<Control>)
    requires s.hasAgreed == Granted
    ensures Run(s, bs).hasAgreed == Granted
    decreases |bs|
  {
    if bs != [] {
      GrantedIsFinal(Step(s, bs[0]), bs[1..]);
    }
  }

  /** Every press keeps the invariant. */
  lemma StepKeepsInv(s: Session, b: Control)
    requires Inv(s)
    ensures Inv(Step(s, b))
  {
  }

  /** Every reachable state satisfies the invariant and leaves `recordingTime` at 0. */
  lemma {:induction false} ReachableInv(s: Session, bs: seq<Control>)
    requires Inv(s)
    ensures Inv(Run(s, bs)) && Run(s, bs).recordingTime == 0
    decreases |bs|
  {
    if bs != [] {
      StepKeepsInv(s, bs[0]);
      ReachableInv(Step(s, bs[0]), bs[1..]);
    }
  }

  /** Under the invariant the timer, when shown, reads "00:00", and it is shown exactly while recording. */
  lemma TimerAtZero(s: Session)
    requires Inv(s)
    ensures TimerText(s).Some? <==> s.isRecording
    ensures s.isRecording ==> TimerText(s) == Some("00:00")
  {
    if s.isRecording {
      assert TimerText(s) == Some(FormatTime(0));
      FormatTimeZero();
    }
  }

  /** The same holds in every state reachable from the initial one. */
  lemma TimerStaysAtZero(bs: seq<Control>)
    ensures TimerText(Run(Initial, bs)).Some? <==> Run(Initial, bs).isRecording
    ensures Run(Initial, bs).isRecording ==> TimerText(Run(Initial, bs)) == Some("00:00")
  {
    ReachableInv(Initial, bs);
    TimerAtZero(Run(Initial, bs));
  }

  /** The recording page component: its state hooks as fields, its handlers as methods. */
  class RecordingSession {
    var hasAgreed: Consent
    var isRecording: bool
    var recordingTime: nat

    function Snapshot(): Session
      reads this
    {
      Session(hasAgreed, isRecording, recordingTime)
    }

    ghost predicate Valid()
      reads this
    {
      Inv(Snapshot())
    }

    constructor ()
      ensures hasAgreed == Unanswered && !isRecording && recordingTime == 0
      ensures Snapshot() == Initial && Valid()
    {
      hasAgreed := Unanswered;
      isRecording := false;
      recordingTime := 0;
    }

    method HandleAgreement(agreed: bool)
      modifies this
      ensures hasAgreed == (if agreed then Granted else Denied)
      ensures isRecording == (agreed || old(isRecording))
      ensures recordingTime == old(recordingTime)
      ensures Snapshot() == Agree(old(Snapshot()), agreed)
    {
      hasAgreed := if agreed then Granted else Denied;
      if agreed {
        isRecording := true;
      }
    }

    method ToggleRecording()
      modifies this
      ensures isRecording == !old(isRecording)
      ensures hasAgreed == old(hasAgreed) && recordingTime == old(recordingTime)
      ensures Snapshot() == Toggle(old(Snapshot()))
    {
      isRecording := !isRecording;
    }

    /** The "Try Again" button's handler. */
    method TryAgain()
      modifies this
      ensures hasAgreed == Unanswered
      ensures isRecording == old(isRecording) && recordingTime == old(recordingTime)
      ensures Snapshot() == Retry(old(Snapshot()))
    {
      hasAgreed := Unanswered;
    }

    /** A press on one of the page's buttons; a button not on screen cannot be pressed. */
    method Press(b: Control)
      modifies this
      ensures Snapshot() == Step(old(Snapshot()), b)
      ensures old(Valid()) ==> Valid()
      ensures old(hasAgreed) == Granted ==> hasAgreed == Granted
    {
      if Offered(Snapshot(), b) {
        match b {
          case YesButton => HandleAgreement(true);
          case NoButton => HandleAgreement(false);
          case TryAgainButton => TryAgain();
          case RecordButton => ToggleRecording();
        }
      }
    }
  }
}

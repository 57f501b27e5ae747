/**
  The recording orchestrator (`MenuBarController`): the `isRecording` flag, the
  backend start and stop requests it issues, the paste of a finished
  transcript, and the wiring of the Fn-key callbacks to start and stop.

  The bodies of the asynchronous `Task`s become `Completion` events that are
  applied later, in any order the caller chooses; the requests issued to the
  backend and the texts handed to the paste service are recorded, in order,
  as `Effect`s.
*/
module MenuBar {
  import opened Hotkey

  /** A call the controller makes on a collaborator. */
  datatype Effect = BackendStart | BackendStop | Paste(text: string)

  /** How an asynchronous backend call settled. */
  datatype Completion = StartSucceeded | StartFailed | StopSucceeded(text: string) | StopFailed

  /** What `updateStatusIcon` shows: the button's symbol, the menu status title and the red tint. */
  datatype Indicator = Indicator(symbol: string, title: string, tinted: bool)

  /** `updateStatusIcon(recording:)`, without the drawing. */
  function StatusIndicator(recording: bool): (r: Indicator)
    ensures r.title == "Recording..." <==> recording
    ensures r.title == "Ready" <==> !recording
    ensures r.symbol == "waveform.circle.fill" <==> recording
    ensures r.symbol == "waveform" <==> !recording
    ensures r.tinted <==> recording
  {
    if recording then Indicator("waveform.circle.fill", "Recording...", true)
    else Indicator("waveform", "Ready", false)
  }

  /** The controller's flag and everything it has issued so far. */
  datatype Session = Session(isRecording: bool, effects: seq<Effect>)

  const Idle: Session := Session(false, [])

  /** `startRecording`: a start while recording is ignored; otherwise the flag is set at once and one start is issued. */
  function AfterStart(c: Session): (r: Session)
    ensures c.isRecording ==> r == c
    ensures !c.isRecording ==> r.isRecording && r.effects == c.effects + [BackendStart]
  {
    if c.isRecording then c else Session(true, c.effects + [BackendStart])
  }

  /** `stopRecordingAndTranscribe`: a stop while not recording is ignored; otherwise the flag is cleared at once and one stop is issued. */
  function AfterStop(c: Session): (r: Session)
    ensures !c.isRecording ==> r == c
    ensures c.isRecording ==> !r.isRecording && r.effects == c.effects + [BackendStop]
  {
    if !c.isRecording then c else Session(false, c.effects + [BackendStop])
  }

  /** The branches of the two `Task` bodies, applied when the backend call settles. */
  function AfterCompletion(c: Session, e: Completion): (r: Session)
    ensures e == StartFailed ==> r == Session(false, c.effects)
    ensures e.StopSucceeded? && e.text != "" ==> r == Session(c.isRecording, c.effects + [Paste(e.text)])
    ensures e.StopSucceeded? && e.text == "" ==> r == c
    ensures e == StartSucceeded || e == StopFailed ==> r == c
  {
    match e
    case StartSucceeded => c
    case StartFailed => c.(isRecording := false)
    case StopSucceeded(text) => if text != "" then c.(effects := c.effects + [Paste(text)]) else c
    case StopFailed => c
  }

  /** The closures `setupHotkey` installs: a double-tap only logs, a down starts, an up stops. */
  function AfterCallback(c: Session, cb: Callback): (r: Session)
    ensures cb == DoubleTapFn ==> r == c
    ensures cb == FnKeyDown ==> r == AfterStart(c)
    ensures cb == FnKeyUp ==> r == AfterStop(c)
  {
    match cb
    case DoubleTapFn => c
    case FnKeyDown => AfterStart(c)
    case FnKeyUp => AfterStop(c)
  }

  /** The callbacks of one snapshot, dispatched in the order they fired. */
  function AfterCallbacks(c: Session, cbs: seq<Callback>): (r: Session)
    decreases |cbs|
  {
    if cbs == [] then c else AfterCallback(AfterCallbacks(c, cbs[..|cbs| - 1]), cbs[|cbs| - 1])
  }

  /** What reaches the application: a modifier-flag snapshot or a settled backend call. */
  datatype AppEvent = Flags(fn: bool, at: int) | Done(completion: Completion)

  /** The hotkey manager's state and the controller's. */
  datatype App = App(gesture: Gesture, session: Session)

  const Launched: App := App(Initial, Idle)

  function AppStep(a: App, ev: AppEvent): (r: App) {
    match ev
    case Flags(fn, at) =>
      var s := FlagsChanged(a.gesture, fn, at);
      App(s.next, AfterCallbacks(a.session, s.fired))
    case Done(e) => App(a.gesture, AfterCompletion(a.session, e))
  }

  function RunApp(a: App, evs: seq<AppEvent>): (r: App)
    decreases |evs|
  {
    if evs == [] then a else RunApp(AppStep(a, evs[0]), evs[1..])
  }

  /** The backend requests among the effects, in order. */
  function Requests(effects: seq<Effect>): (q: seq<Effect>)
    ensures |q| <= |effects|
    ensures forall x :: x in q <==> x in effects && !x.Paste?
    decreases |effects|
  {
    if effects == [] then []
    else
      var last := effects[|effects| - 1];
      Requests(effects[..|effects| - 1]) + (if last.Paste? then [] else [last])
  }

  /** Requests are taken effect by effect, so issuing more effects only appends requests. */
  lemma {:induction false} RequestsAppend(a: seq<Effect>, b: seq<Effect>)
    ensures Requests(a + b) == Requests(a) + Requests(b)
    decreases |b|
  {
    if b == [] {
      assert a + b == a;
    } else {
      var b' := b[..|b| - 1];
      var last := b[|b| - 1];
      assert (a + b)[..|a + b| - 1] == a + b';
      assert (a + b)[|a + b| - 1] == last;
      RequestsAppend(a, b');
    }
  }

  /**
    What the controller keeps true: every stop request directly follows a start
    request, while recording the last request issued is a start, and only
    non-empty text is ever pasted.
  */
  predicate Disciplined(c: Session) {
    var q := Requests(c.effects);
    (forall i :: 0 <= i < |q| && q[i] == BackendStop ==> 0 < i && q[i - 1] == BackendStart) &&
    (c.isRecording ==> q != [] && q[|q| - 1] == BackendStart) &&
    (forall i :: 0 <= i < |c.effects| && c.effects[i].Paste? ==> c.effects[i].text != "")
  }

  lemma CallbackKeepsDiscipline(c: Session, cb: Callback)
    requires Disciplined(c)
    ensures Disciplined(AfterCallback(c, cb))
  {
    var r := AfterCallback(c, cb);
    if r != c {
      assert r.effects[..|r.effects| - 1] == c.effects;
    }
  }

  lemma CompletionKeepsDiscipline(c: Session, e: Completion)
    requires Disciplined(c)
    ensures Disciplined(AfterCompletion(c, e))
  {
    var r := AfterCompletion(c, e);
    if r.effects != c.effects {
      assert r.effects[..|r.effects| - 1] == c.effects;
    }
  }

  lemma {:induction false} CallbacksKeepDiscipline(c: Session, cbs: seq<Callback>)
    requires Disciplined(c)
    ensures Disciplined(AfterCallbacks(c, cbs))
    decreases |cbs|
  {
    if cbs != [] {
      CallbacksKeepDiscipline(c, cbs[..|cbs| - 1]);
      CallbackKeepsDiscipline(AfterCallbacks(c, cbs[..|cbs| - 1]), cbs[|cbs| - 1]);
    }
  }

  /**
    Whatever the snapshots and however the backend calls settle, no stop is
    issued without a start directly before it, and no empty transcript is pasted.
  */
  lemma {:induction false} RunKeepsDiscipline(a: App, evs: seq<AppEvent>)
    requires Disciplined(a.session)
    ensures Disciplined(RunApp(a, evs).session)
    decreases |evs|
  {
    if evs != [] {
      match evs[0] {
        case Flags(fn, at) =>
          CallbacksKeepDiscipline(a.session, FlagsChanged(a.gesture, fn, at).fired);
        case Done(e) =>
          CompletionKeepsDiscipline(a.session, e);
      }
      RunKeepsDiscipline(AppStep(a, evs[0]), evs[1..]);
    }
  }

  /** From launch, over any interleaving of snapshots and completions. */
  lemma LaunchedStaysDisciplined(evs: seq<AppEvent>)
    ensures Disciplined(RunApp(Launched, evs).session)
  {
    RunKeepsDiscipline(Launched, evs);
  }

  /** Double-tap then hold: press, release, press 100 ms after the first, release at 2 s gives one start and one stop. */
  lemma DoubleTapThenHold()
    ensures RunApp(Launched, [Flags(true, 0), Flags(false, 50), Flags(true, 100), Flags(false, 2000)]).session
         == Session(false, [BackendStart, BackendStop])
  {
  }

  /** A lone tap issues nothing. */
  lemma LoneTapIssuesNothing()
    ensures RunApp(Launched, [Flags(true, 0), Flags(false, 50)]).session == Idle
  {
  }

  /** An empty transcript is not pasted; a non-empty one is pasted exactly once, as it came. */
  lemma TranscriptPasted()
    ensures RunApp(Launched, [Flags(true, 0), Flags(false, 50), Flags(true, 100), Flags(false, 2000),
                              Done(StopSucceeded(""))]).session
         == Session(false, [BackendStart, BackendStop])
    ensures RunApp(Launched, [Flags(true, 0), Flags(false, 50), Flags(true, 100), Flags(false, 2000),
                              Done(StopSucceeded("hello world"))]).session
         == Session(false, [BackendStart, BackendStop, Paste("hello world")])
  {
  }

  /**
    A start that fails late, after its session was stopped and a new one started,
    clears the flag of the new session, so the release that ends it issues no stop.
  */
  lemma LateStartFailureLosesStop()
    ensures var evs := [Flags(true, 0), Flags(false, 50), Flags(true, 100), Flags(false, 2000),
                        Flags(true, 3000), Flags(false, 3050), Flags(true, 3100),
                        Done(StartFailed), Flags(false, 5000)];
      RunApp(Launched, evs).session == Session(false, [BackendStart, BackendStop, BackendStart])
  {
  }

  /**
    The recording flag never outlives push-to-talk: while recording, the key
    is held in push-to-talk (and push-to-talk implies the key is down).
  */
  predicate InStep(a: App) {
    Consistent(a.gesture) && (a.session.isRecording ==> a.gesture.isInPushToTalkMode)
  }

  lemma StepKeepsInStep(a: App, ev: AppEvent)
    requires InStep(a)
    ensures InStep(AppStep(a, ev))
  {
  }

  /** Under any interleaving of snapshots and completions, recording implies push-to-talk. */
  lemma {:induction false} RunKeepsInStep(a: App, evs: seq<AppEvent>)
    requires InStep(a)
    ensures InStep(RunApp(a, evs))
    decreases |evs|
  {
    if evs != [] {
      StepKeepsInStep(a, evs[0]);
      RunKeepsInStep(AppStep(a, evs[0]), evs[1..]);
    }
  }

  /** From launch, the controller never records while the key is out of push-to-talk. */
  lemma LaunchedStaysInStep(evs: seq<AppEvent>)
    ensures InStep(RunApp(Launched, evs))
    ensures RunApp(Launched, evs).session.isRecording ==> RunApp(Launched, evs).gesture.isFnPressed
  {
    RunKeepsInStep(Launched, evs);
  }

  /**
    The converse does not hold: a failed start leaves push-to-talk open while
    the controller is no longer recording, so the release that follows issues no stop.
  */
  lemma StartFailureLeavesPushToTalkOpen()
    ensures var a := RunApp(Launched, [Flags(true, 0), Flags(false, 50), Flags(true, 100), Done(StartFailed)]);
      a.gesture.isInPushToTalkMode && a.gesture.isFnPressed && !a.session.isRecording &&
      a.session.effects == [BackendStart]
  {
  }

  class MenuBarController {
    var isRecording: bool
    var indicator: Indicator
    var effects: seq<Effect>
    const hotkeyManager: HotkeyManager

    function CurrentSession(): (c: Session)
      reads this
    {
      Session(isRecording, effects)
    }

    /** The indicator always shows the flag. */
    ghost predicate Valid()
      reads this
    {
      indicator == StatusIndicator(isRecording)
    }

    /** `init` with `setupHotkey`: the NSEvent monitors and the menu construction are left out. */
    constructor ()
      ensures Valid() && CurrentSession() == Idle
      ensures fresh(hotkeyManager) && hotkeyManager.State() == Initial
    {
      isRecording := false;
      indicator := StatusIndicator(false);
      effects := [];
      hotkeyManager := new HotkeyManager();
    }

    method StartRecording()
      requires Valid()
      modifies this
      ensures Valid() && CurrentSession() == AfterStart(old(CurrentSession()))
    {
      if isRecording {
        return;
      }
      isRecording := true;
      indicator := StatusIndicator(true);
      effects := effects + [BackendStart];
    }

    method StopRecordingAndTranscribe()
      requires Valid()
      modifies this
      ensures Valid() && CurrentSession() == AfterStop(old(CurrentSession()))
    {
      if !isRecording {
        return;
      }
      isRecording := false;
      indicator := StatusIndicator(false);
      effects := effects + [BackendStop];
    }

    /** The rest of a `Task` body, run once its backend call has settled. */
    method Complete(e: Completion)
      requires Valid()
      modifies this
      ensures Valid() && CurrentSession() == AfterCompletion(old(CurrentSession()), e)
    {
      match e
      case StartSucceeded =>
      case StartFailed =>
        isRecording := false;
        indicator := StatusIndicator(false);
      case StopSucceeded(text) =>
        if text != "" {
          effects := effects + [Paste(text)];
        }
      case StopFailed =>
    }

    /** One of the closures installed by `setupHotkey`. */
    method Dispatch(cb: Callback)
      requires Valid()
      modifies this
      ensures Valid() && CurrentSession() == AfterCallback(old(CurrentSession()), cb)
    {
      match cb
      case DoubleTapFn =>
      case FnKeyDown => StartRecording();
      case FnKeyUp => StopRecordingAndTranscribe();
    }

    /** A modifier-flag snapshot delivered by the monitors: classified, then its callbacks dispatched in order. */
    method HandleFlagsChanged(fnPressed: bool, now: int)
      requires Valid()
      modifies this, hotkeyManager
      ensures Valid()
      ensures hotkeyManager.State() == FlagsChanged(old(hotkeyManager.State()), fnPressed, now).next
      ensures CurrentSession()
           == AfterCallbacks(old(CurrentSession()), FlagsChanged(old(hotkeyManager.State()), fnPressed, now).fired)
    {
      var fired := hotkeyManager.HandleFlagsChanged(fnPressed, now);
      for i := 0 to |fired|
        invariant Valid()
        invariant hotkeyManager.State() == FlagsChanged(old(hotkeyManager.State()), fnPressed, now).next
        invariant CurrentSession() == AfterCallbacks(old(CurrentSession()), fired[..i])
      {
        assert fired[..i + 1][..i] == fired[..i];
        Dispatch(fired[i]);
      }
      assert fired[..|fired|] == fired;
    }
  }
}

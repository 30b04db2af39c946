/** The playback/recording controller of the speaker activity, as values.

    A `Controller` is everything the activity's event handlers read or write:
    the application state, the gesture UI state, the countdown timer, the
    media player, the sound recorder and the progress bar. Each handler is a
    function from the controller before the event to a `Transition`: the
    controller after it, the platform calls it made (in order), and whether
    it completed or died on a null sound recorder. */
module Speaker {
  import opened JavaArith

  /** Length of a recording session, in milliseconds (ten seconds). */
  const CountDownMs: int := 10000
  /** Milliseconds per second, the countdown's tick interval and the progress bar's unit. */
  const MillisInSecond: int := 1000

  datatype AppState = Ready | PlayingVoice | PlayingMusic | Recording

  datatype UIState = Home | MicUp | SoundUp | MusicUp

  /** The calls the activity makes into collaborators whose code is not modelled. */
  datatype Action =
    | StartRecording | StopRecording | StartPlay | StopPlaying | CreateRecorder | CleanupRecorder
    | CreatePlayer | StartPlayer | StopPlayer | ReleasePlayer
    | StartTimer | CancelTimer
    | TransitionToHome

  /** A handler either runs to its end or dereferences a null sound recorder,
      which throws and ends the activity. */
  datatype Outcome = Completed | NullRecorder

  /** Which countdown timer an expiry or tick comes from: the one the activity
      still references, or one whose reference was overwritten while it ran. */
  datatype Timer = Current | Orphan

  datatype Controller = Controller(
    state: AppState,
    ui: UIState,
    timerExists: bool,     // the timer reference is non-null
    timerRunning: bool,    // the referenced timer is started and not yet cancelled or expired
    orphanTimers: nat,     // started timers no longer referenced, still counting down
    playerExists: bool,
    recorderExists: bool,
    progress: int,         // the value last handed to the progress bar
    progressVisible: bool)

  datatype Transition = Transition(next: Controller, actions: seq<Action>, outcome: Outcome)

  /** What holds of every controller: a running timer is referenced or counted
      as an orphan, and the progress value is a Java `int`. */
  predicate Wellformed(c: Controller) {
    (c.timerRunning ==> c.timerExists) && IsInt(c.progress)
  }

  /** The application state that goes with each gesture UI state. */
  function StateFor(ui: UIState): AppState {
    match ui
    case Home => Ready
    case MicUp => Recording
    case SoundUp => PlayingVoice
    case MusicUp => PlayingMusic
  }

  /** The application state and the UI state agree. */
  predicate Coherent(c: Controller) {
    c.state == StateFor(c.ui)
  }

  /** Number of timers still counting down, referenced or not. */
  function RunningTimers(c: Controller): nat {
    c.orphanTimers + if c.timerRunning then 1 else 0
  }

  /** The activity as constructed: READY at HOME, with no timer, player or
      recorder; the progress bar holds what the layout gave it. */
  function Initial(layoutProgress: int, layoutVisible: bool): (c: Controller)
    requires IsInt(layoutProgress)
    ensures Wellformed(c) && Coherent(c) && RunningTimers(c) == 0
  {
    Controller(Ready, Home, false, false, 0, false, false, layoutProgress, layoutVisible)
  }

  function Done(c: Controller, actions: seq<Action>): Transition {
    Transition(c, actions, Completed)
  }

  function Crash(c: Controller): Transition {
    Transition(c, [], NullRecorder)
  }

  /** The value `setProgressBar` hands to the progress bar for a duration in
      milliseconds: whole seconds, truncated toward zero, cast to `int`. */
  function ProgressFor(millis: int): (p: int)
    requires IsLong(millis)
    ensures IsInt(p)
  {
    ToInt(Quot(millis, MillisInSecond))
  }

  /** setProgressBar(millis). */
  function SetProgressBar(c: Controller, millis: int): (d: Controller)
    requires IsLong(millis)
    ensures Wellformed(c) ==> Wellformed(d)
    ensures d.progress == ProgressFor(millis)
  {
    c.(progress := ProgressFor(millis))
  }

  /** Timer `t` can deliver a tick or an expiry: it is still counting down. */
  predicate Fires(c: Controller, t: Timer) {
    match t
    case Current => c.timerRunning
    case Orphan => c.orphanTimers > 0
  }

  /** Timer `t` has counted down to zero and stops. */
  function Expire(c: Controller, t: Timer): (d: Controller)
    requires Fires(c, t)
    ensures RunningTimers(d) == RunningTimers(c) - 1
    ensures d.timerExists == c.timerExists
    ensures Wellformed(c) ==> Wellformed(d)
  {
    match t
    case Current => c.(timerRunning := false)
    case Orphan => c.(orphanTimers := c.orphanTimers - 1)
  }

  /** The timer reference is set to null; a timer that was still counting
      down keeps counting, now as an orphan. */
  function DropTimer(c: Controller): (d: Controller)
    ensures !d.timerExists && !d.timerRunning
    ensures RunningTimers(d) == RunningTimers(c)
    ensures Wellformed(c) ==> Wellformed(d)
  {
    c.(timerExists := false, timerRunning := false,
       orphanTimers := RunningTimers(c))
  }

  /** A new timer is created, assigned to the reference and started. */
  function StartNewTimer(c: Controller): (d: Controller)
    ensures d.timerExists && d.timerRunning
    ensures RunningTimers(d) == RunningTimers(c) + 1
    ensures Wellformed(c) ==> Wellformed(d)
  {
    c.(timerExists := true, timerRunning := true,
       orphanTimers := RunningTimers(c))
  }

  /** playMusic(): create the player if there is none, then start it. */
  function PlayMusic(c: Controller): (r: Transition)
    ensures r.outcome == Completed && r.next.playerExists
    ensures Wellformed(c) ==> Wellformed(r.next)
  {
    if c.playerExists then Done(c, [StartPlayer])
    else Done(c.(playerExists := true), [CreatePlayer, StartPlayer])
  }

  /** stopMusic(): stop and release the player if there is one. */
  function StopMusic(c: Controller): (r: Transition)
    ensures r.outcome == Completed && !r.next.playerExists
    ensures Wellformed(c) ==> Wellformed(r.next)
  {
    if c.playerExists then Done(c.(playerExists := false), [StopPlayer, ReleasePlayer])
    else Done(c, [])
  }

  /** onUIStateChanged(req): the gesture UI reports the state it moved to. */
  function UIStateChanged(c: Controller, req: UIState): (r: Transition)
    ensures Wellformed(c) ==> Wellformed(r.next)
    ensures Coherent(c) ==> Coherent(r.next)
  {
    if c.ui == req then Done(c, [])
    else
      match req
      case MusicUp =>
        PlayMusic(c.(state := PlayingMusic, ui := req))
      case MicUp =>
        var d := c.(state := Recording, ui := req);
        if !d.recorderExists then Crash(d)
        else Done(StartNewTimer(SetProgressBar(d, CountDownMs)), [StartRecording, StartTimer])
      case SoundUp =>
        var d := c.(state := PlayingVoice, ui := req);
        if !d.recorderExists then Crash(d)
        else Done(d, [StartPlay])
      case Home =>
        HomeRequested(c)
  }

  /** The HOME case of onUIStateChanged: switch on the application state.
      There is no READY case, so a HOME request while READY does nothing. */
  function HomeRequested(c: Controller): (r: Transition)
    ensures Wellformed(c) ==> Wellformed(r.next)
    ensures c.state != Ready ==> r.next.state == Ready && r.next.ui == Home
  {
    match c.state
    case PlayingMusic =>
      StopMusic(c.(state := Ready, ui := Home))
    case PlayingVoice =>
      var d := c.(state := Ready, ui := Home);
      if !d.recorderExists then Crash(d)
      else Done(d, [StopPlaying])
    case Recording =>
      var d := c.(state := Ready, ui := Home);
      if !d.recorderExists then Crash(d)
      else
        var cancel := if d.timerExists then [CancelTimer] else [];
        var e := if d.timerExists then d.(timerExists := false, timerRunning := false) else d;
        Done(SetProgressBar(e.(progressVisible := false), CountDownMs), [StopRecording] + cancel)
    case Ready =>
      Done(c, [])
  }

  /** The countdown's onTick(millisUntilFinished). */
  function TimerTicked(c: Controller, t: Timer, millisUntilFinished: int): (r: Transition)
    requires Fires(c, t) && IsLong(millisUntilFinished)
    ensures Wellformed(c) ==> Wellformed(r.next)
    ensures r.next.state == c.state && r.next.ui == c.ui
  {
    Done(SetProgressBar(c.(progressVisible := true), millisUntilFinished), [])
  }

  /** The countdown's onFinish(): clear and hide the bar, stop recording,
      animate home, and drop the timer reference. */
  function TimerFinished(c: Controller, t: Timer): (r: Transition)
    requires Fires(c, t)
    ensures Wellformed(c) ==> Wellformed(r.next)
    ensures Coherent(c) ==> Coherent(r.next)
    ensures RunningTimers(r.next) == RunningTimers(c) - 1
  {
    var d := Expire(c, t).(progress := 0, progressVisible := false);
    if !d.recorderExists then Crash(d)
    else Done(DropTimer(d).(ui := Home, state := Ready), [StopRecording, TransitionToHome])
  }

  /** onPlaybackStopped(): the recorder finished playing the voice file. */
  function PlaybackStopped(c: Controller): (r: Transition)
    ensures Wellformed(c) ==> Wellformed(r.next)
    ensures Coherent(r.next)
  {
    Done(c.(ui := Home, state := Ready), [TransitionToHome])
  }

  /** The completion listener playMusic installs on a new player. */
  function MusicCompleted(c: Controller): (r: Transition)
    requires c.playerExists
    ensures Wellformed(c) ==> Wellformed(r.next)
    ensures r.next == c
  {
    Done(c, [TransitionToHome])
  }

  /** onStop(): clean up the recorder, cancel the referenced timer (keeping
      the reference), release the player. */
  function Stopped(c: Controller): (r: Transition)
    ensures Wellformed(c) ==> Wellformed(r.next)
    ensures r.next.state == c.state && r.next.ui == c.ui
  {
    Done(c.(recorderExists := false,
            timerRunning := if c.timerExists then false else c.timerRunning,
            playerExists := false),
         (if c.recorderExists then [CleanupRecorder] else [])
         + (if c.timerExists then [CancelTimer] else [])
         + (if c.playerExists then [ReleasePlayer] else []))
  }

  /** start(): the sound recorder is created (after the permission is granted). */
  function Started(c: Controller): (r: Transition)
    ensures Wellformed(c) ==> Wellformed(r.next)
    ensures r.next.state == c.state && r.next.ui == c.ui
  {
    Done(c.(recorderExists := true), [CreateRecorder])
  }
}

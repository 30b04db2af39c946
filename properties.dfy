/** What the controller guarantees: one lemma per handler case, then the same
    handlers driven by arbitrary sequences of events. */
module SpeakerProperties {
  import opened JavaArith
  import opened Speaker

  // ---------------------------------------------------------------------
  // Progress bar arithmetic

  /** A full countdown shows ten seconds on the bar. */
  lemma FullCountdownShowsTen()
    ensures ProgressFor(CountDownMs) == 10
  {
  }

  /** The bar shows the exact (truncated) number of seconds precisely when
      that number fits in a Java `int`. */
  lemma ProgressIsWholeSeconds(millis: int)
    requires IsLong(millis)
    ensures ProgressFor(millis) == Quot(millis, MillisInSecond) <==> IsInt(Quot(millis, MillisInSecond))
  {
  }

  /** Between 0 and 2^31 seconds, the bar shows the seconds rounded down. */
  lemma ProgressRoundsDown(millis: int)
    requires 0 <= millis < (IntMax + 1) * MillisInSecond
    ensures var p := ProgressFor(millis);
            0 <= p && p * MillisInSecond <= millis < (p + 1) * MillisInSecond
  {
  }

  /** A negative duration is rounded toward zero, not down. */
  lemma ProgressOfNegativeRoundsUp()
    ensures ProgressFor(-1500) == -1
  {
  }

  /** 2^31 seconds overflows the cast to `int`. */
  lemma ProgressWrapsAround()
    ensures ProgressFor((IntMax + 1) * MillisInSecond) == IntMin
  {
  }

  // ---------------------------------------------------------------------
  // onUIStateChanged

  /** Reporting the UI state that is already current changes nothing and
      calls nothing. */
  lemma SameUIStateIsIgnored(c: Controller, req: UIState)
    requires c.ui == req
    ensures UIStateChanged(c, req) == Transition(c, [], Completed)
  {
  }

  /** A new MUSIC_UP starts the music; a player exists afterwards and is
      created only if there was none. */
  lemma MusicUpPlaysMusic(c: Controller)
    requires c.ui != MusicUp
    ensures var r := UIStateChanged(c, MusicUp);
            && r.outcome == Completed
            && r.next.state == PlayingMusic && r.next.ui == MusicUp && r.next.playerExists
            && r.actions == (if c.playerExists then [] else [CreatePlayer]) + [StartPlayer]
            && r.next.(state := c.state, ui := c.ui, playerExists := c.playerExists) == c
  {
  }

  /** A new MIC_UP starts recording, sets the bar to ten seconds and starts a
      fresh countdown; a countdown that was still running keeps running
      unreferenced. */
  lemma MicUpStartsRecording(c: Controller)
    requires c.ui != MicUp && c.recorderExists
    ensures var r := UIStateChanged(c, MicUp);
            && r.outcome == Completed
            && r.next.state == Recording && r.next.ui == MicUp
            && r.actions == [StartRecording, StartTimer]
            && r.next.progress == 10
            && r.next.timerExists && r.next.timerRunning
            && RunningTimers(r.next) == RunningTimers(c) + 1
            && r.next.playerExists == c.playerExists && r.next.progressVisible == c.progressVisible
  {
  }

  /** A new SOUND_UP starts playing the recorded voice and touches nothing else. */
  lemma SoundUpPlaysVoice(c: Controller)
    requires c.ui != SoundUp && c.recorderExists
    ensures var r := UIStateChanged(c, SoundUp);
            && r.outcome == Completed
            && r.next == c.(state := PlayingVoice, ui := SoundUp)
            && r.actions == [StartPlay]
  {
  }

  /** HOME while recording: back to READY/HOME, recording stopped, the
      referenced timer (if any) cancelled and dropped, the bar hidden and
      reset to ten seconds. */
  lemma HomeStopsRecording(c: Controller)
    requires c.ui != Home && c.state == Recording && c.recorderExists && Wellformed(c)
    ensures var r := UIStateChanged(c, Home);
            && r.outcome == Completed
            && r.next.state == Ready && r.next.ui == Home
            && r.actions == [StopRecording] + (if c.timerExists then [CancelTimer] else [])
            && !r.next.timerExists && !r.next.timerRunning
            && RunningTimers(r.next) == RunningTimers(c) - (if c.timerRunning then 1 else 0)
            && r.next.progress == 10 && !r.next.progressVisible
  {
  }

  /** HOME while playing music: back to READY/HOME, the player stopped and
      released if there was one. */
  lemma HomeStopsMusic(c: Controller)
    requires c.ui != Home && c.state == PlayingMusic
    ensures var r := UIStateChanged(c, Home);
            && r.outcome == Completed
            && r.next == c.(state := Ready, ui := Home, playerExists := false)
            && r.actions == (if c.playerExists then [StopPlayer, ReleasePlayer] else [])
  {
  }

  /** HOME while playing the voice: back to READY/HOME, playback stopped. */
  lemma HomeStopsVoice(c: Controller)
    requires c.ui != Home && c.state == PlayingVoice && c.recorderExists
    ensures var r := UIStateChanged(c, Home);
            && r.outcome == Completed
            && r.next == c.(state := Ready, ui := Home)
            && r.actions == [StopPlaying]
  {
  }

  /** HOME while READY (with the UI elsewhere) falls through the inner
      switch: nothing changes, not even the UI state. */
  lemma HomeWhileReadyIsIgnored(c: Controller)
    requires c.ui != Home && c.state == Ready
    ensures UIStateChanged(c, Home) == Transition(c, [], Completed)
  {
  }

  /** The handler dies on a null sound recorder exactly when it reaches a
      recorder call: a new MIC_UP or SOUND_UP, or HOME while recording or
      playing the voice. The states it assigned before the call stay. */
  lemma UIStateChangedFailsOnlyWithoutRecorder(c: Controller, req: UIState)
    ensures var r := UIStateChanged(c, req);
            r.outcome == NullRecorder <==>
              && !c.recorderExists && req != c.ui
              && (req == MicUp || req == SoundUp
                  || (req == Home && (c.state == Recording || c.state == PlayingVoice)))
    ensures var r := UIStateChanged(c, req);
            r.outcome == NullRecorder ==>
              r.actions == [] && r.next == c.(state := StateFor(req), ui := req)
  {
  }

  // ---------------------------------------------------------------------
  // Countdown, playback and lifecycle callbacks

  /** A finishing countdown clears and hides the bar, stops recording,
      animates home, sets READY/HOME and leaves no timer referenced. */
  lemma FinishGoesHome(c: Controller, t: Timer)
    requires Fires(c, t) && c.recorderExists
    ensures var r := TimerFinished(c, t);
            && r.outcome == Completed
            && r.actions == [StopRecording, TransitionToHome]
            && r.next.state == Ready && r.next.ui == Home
            && r.next.progress == 0 && !r.next.progressVisible
            && !r.next.timerExists && !r.next.timerRunning
            && RunningTimers(r.next) == RunningTimers(c) - 1
            && r.next.playerExists == c.playerExists
  {
  }

  /** A tick shows the bar with the remaining whole seconds. */
  lemma TickShowsRemainingSeconds(c: Controller, t: Timer, millis: int)
    requires Fires(c, t) && 0 <= millis <= CountDownMs
    ensures var r := TimerTicked(c, t, millis);
            && r.next == c.(progress := millis / MillisInSecond, progressVisible := true)
            && r.actions == []
  {
  }

  /** The end of voice playback sets READY/HOME and animates home but leaves
      the timer alone. */
  lemma PlaybackStoppedKeepsTimer(c: Controller)
    ensures var r := PlaybackStopped(c);
            && r.next == c.(state := Ready, ui := Home)
            && r.actions == [TransitionToHome]
  {
  }

  /** playMusic leaves a started player; it creates one only if there was none. */
  lemma PlayMusicCreatesOnlyWhenMissing(c: Controller)
    ensures var r := PlayMusic(c);
            && r.next == c.(playerExists := true)
            && (CreatePlayer in r.actions <==> !c.playerExists)
            && r.actions[|r.actions| - 1] == StartPlayer
  {
  }

  /** stopMusic leaves no player, and a second stopMusic does nothing. */
  lemma StopMusicIsIdempotent(c: Controller)
    ensures var r := StopMusic(c);
            && !r.next.playerExists
            && StopMusic(r.next) == Transition(r.next, [], Completed)
  {
  }

  /** onStop leaves neither recorder nor player, cancels the referenced timer
      if there is one, and keeps the reference. */
  lemma StopReleasesEverything(c: Controller)
    ensures var r := Stopped(c);
            && !r.next.recorderExists && !r.next.playerExists
            && r.next.timerExists == c.timerExists
            && (c.timerExists ==> !r.next.timerRunning)
            && (CancelTimer in r.actions <==> c.timerExists)
            && r.next.orphanTimers == c.orphanTimers
            && r.next.state == c.state && r.next.ui == c.ui
  {
  }

  // ---------------------------------------------------------------------
  // Sequences of events

  /** Everything that can happen to the activity. A timer event names a timer
      that may have stopped; a completion may come for a player that is gone. */
  datatype Event =
    | UIChanged(target: UIState)
    | Tick(timer: Timer, millisUntilFinished: int)
    | Finish(timer: Timer)
    | PlaybackEnded
    | MusicEnded
    | Stop
    | Start

  /** One event. Timer events of a stopped timer, completions of a released
      player and ticks outside the range of a `long` cannot occur: nothing happens. */
  function Apply(c: Controller, e: Event): (r: Transition)
    ensures Wellformed(c) ==> Wellformed(r.next)
    ensures Coherent(c) ==> Coherent(r.next)
  {
    match e
    case UIChanged(t) => UIStateChanged(c, t)
    case Tick(t, ms) => if Fires(c, t) && IsLong(ms) then TimerTicked(c, t, ms) else Done(c, [])
    case Finish(t) => if Fires(c, t) then TimerFinished(c, t) else Done(c, [])
    case PlaybackEnded => PlaybackStopped(c)
    case MusicEnded => if c.playerExists then MusicCompleted(c) else Done(c, [])
    case Stop => Stopped(c)
    case Start => Started(c)
  }

  /** The events in order, until one of them crashes the activity; the
      actions of all handlers that ran, concatenated. */
  function Run(c: Controller, evs: seq<Event>): (r: Transition)
    ensures Wellformed(c) ==> Wellformed(r.next)
    ensures Coherent(c) ==> Coherent(r.next)
    decreases |evs|
  {
    if evs == [] then Done(c, [])
    else
      var t := Apply(c, evs[0]);
      if t.outcome != Completed then t
      else
        var rest := Run(t.next, evs[1..]);
        Transition(rest.next, t.actions + rest.actions, rest.outcome)
  }

  /** From the freshly created activity, no sequence of events reaches READY
      with the UI away from HOME, so the fall-through of a HOME request while
      READY never happens in practice. */
  lemma IdleAwayFromHomeIsUnreachable(layoutProgress: int, layoutVisible: bool, evs: seq<Event>)
    requires IsInt(layoutProgress)
    ensures var r := Run(Initial(layoutProgress, layoutVisible), evs);
            r.next.state == Ready <==> r.next.ui == Home
  {
  }

  /** The gesture UI moves between HOME and one expanded target, and voice
      playback reports its end only while it plays. */
  predicate GestureDiscipline(c: Controller, e: Event) {
    match e
    case UIChanged(t) => c.ui == Home || t == Home || t == c.ui
    case PlaybackEnded => c.state == PlayingVoice
    case _ => true
  }

  predicate DisciplinedRun(c: Controller, evs: seq<Event>)
    decreases |evs|
  {
    evs == [] ||
    (GestureDiscipline(c, evs[0]) &&
     (Apply(c, evs[0]).outcome == Completed ==> DisciplinedRun(Apply(c, evs[0]).next, evs[1..])))
  }

  /** At most the referenced timer counts down, and only while recording. */
  predicate TimerInvariant(c: Controller) {
    Wellformed(c) && Coherent(c) && c.orphanTimers == 0 && (c.timerRunning ==> c.state == Recording)
  }

  lemma DisciplinedStepKeepsTimerInvariant(c: Controller, e: Event)
    requires TimerInvariant(c) && GestureDiscipline(c, e)
    ensures Apply(c, e).outcome == Completed ==> TimerInvariant(Apply(c, e).next)
  {
  }

  /** Under the gesture discipline no timer is ever orphaned, and a running
      countdown always belongs to a recording. */
  lemma {:induction false} DisciplinedRunKeepsTimerInvariant(c: Controller, evs: seq<Event>)
    requires TimerInvariant(c) && DisciplinedRun(c, evs)
    ensures Run(c, evs).outcome == Completed ==> TimerInvariant(Run(c, evs).next)
    decreases |evs|
  {
    if evs != [] {
      DisciplinedStepKeepsTimerInvariant(c, evs[0]);
      var t := Apply(c, evs[0]);
      if t.outcome == Completed {
        DisciplinedRunKeepsTimerInvariant(t.next, evs[1..]);
      }
    }
  }

  /** Under the timer invariant, a countdown can only finish while recording,
      and it is the referenced one. */
  lemma FinishOnlyWhileRecording(c: Controller, t: Timer)
    requires TimerInvariant(c) && Fires(c, t)
    ensures t == Current && c.state == Recording && c.ui == MicUp
  {
  }

  /** Without the discipline, switching straight from MIC_UP to SOUND_UP and
      then HOME leaves the countdown running while READY, and its finish
      then stops a recording that is not in progress. */
  lemma StrayCountdownAfterDirectSwitch()
    ensures
      var c0 := Started(Initial(0, false)).next;
      var r := Run(c0, [UIChanged(MicUp), UIChanged(SoundUp), UIChanged(Home)]);
      && r.outcome == Completed
      && r.next.state == Ready && r.next.ui == Home && Fires(r.next, Current)
      && TimerFinished(r.next, Current).actions == [StopRecording, TransitionToHome]
  {
  }
}

/** The activity itself: an object whose event handlers update its fields in
    place. Every call into the recorder, the player, the timer or the gesture
    animation is appended to `log`; the fields mirror the source's `mState`,
    `mUiState`, the nullness of `mCountDownTimer`, `mMediaPlayer` and
    `mSoundRecorder`, and the progress bar's value and visibility.

    Each handler is specified by the function of the same event in module
    Speaker: the new fields are that function's next controller and the log
    grows by exactly its actions. */
module SpeakerActivity {
  import opened JavaArith
  import opened Speaker

  class MainActivity {
    var state: AppState
    var uiState: UIState
    var timerExists: bool
    var timerRunning: bool
    var orphanTimers: nat
    var playerExists: bool
    var recorderExists: bool
    var progress: int
    var progressVisible: bool
    var log: seq<Action>

    /** The fields, as a Speaker.Controller value. */
    function Snapshot(): Controller
      reads this
    {
      Controller(state, uiState, timerExists, timerRunning, orphanTimers,
                 playerExists, recorderExists, progress, progressVisible)
    }

    ghost predicate Valid()
      reads this
    {
      Wellformed(Snapshot())
    }

    /** The activity as created; the progress bar's initial value and
        visibility are the layout's. */
    constructor (layoutProgress: int, layoutVisible: bool)
      requires IsInt(layoutProgress)
      ensures Valid()
      ensures Snapshot() == Initial(layoutProgress, layoutVisible) && log == []
    {
      state, uiState := Ready, Home;
      timerExists, timerRunning, orphanTimers := false, false, 0;
      playerExists, recorderExists := false, false;
      progress, progressVisible := layoutProgress, layoutVisible;
      log := [];
    }

    method SetProgressBar(millis: int)
      requires IsLong(millis)
      modifies this`progress
      ensures Snapshot() == Speaker.SetProgressBar(old(Snapshot()), millis)
    {
      progress := ToInt(Quot(millis, MillisInSecond));
    }

    method PlayMusic()
      modifies this`playerExists, this`log
      ensures var t := Speaker.PlayMusic(old(Snapshot()));
              Snapshot() == t.next && log == old(log) + t.actions
    {
      if !playerExists {
        playerExists := true;
        log := log + [CreatePlayer];
      }
      log := log + [StartPlayer];
    }

    method StopMusic()
      modifies this`playerExists, this`log
      ensures var t := Speaker.StopMusic(old(Snapshot()));
              Snapshot() == t.next && log == old(log) + t.actions
    {
      if playerExists {
        log := log + [StopPlayer, ReleasePlayer];
        playerExists := false;
      }
    }

    method OnUIStateChanged(req: UIState) returns (outcome: Outcome)
      requires Valid()
      modifies this
      ensures Valid()
      ensures var t := UIStateChanged(old(Snapshot()), req);
              Snapshot() == t.next && log == old(log) + t.actions && outcome == t.outcome
    {
      outcome := Completed;
      if uiState == req {
        return;
      }
      match req {
        case MusicUp =>
          state, uiState := PlayingMusic, req;
          PlayMusic();
        case MicUp =>
          state, uiState := Recording, req;
          if !recorderExists {
            outcome := NullRecorder;
            return;
          }
          log := log + [StartRecording];
          SetProgressBar(CountDownMs);
          orphanTimers := RunningTimers(Snapshot());
          timerExists, timerRunning := true, true;
          log := log + [StartTimer];
        case SoundUp =>
          state, uiState := PlayingVoice, req;
          if !recorderExists {
            outcome := NullRecorder;
            return;
          }
          log := log + [StartPlay];
        case Home =>
          match state {
            case PlayingMusic =>
              state, uiState := Ready, req;
              StopMusic();
            case PlayingVoice =>
              state, uiState := Ready, req;
              if !recorderExists {
                outcome := NullRecorder;
                return;
              }
              log := log + [StopPlaying];
            case Recording =>
              state, uiState := Ready, req;
              if !recorderExists {
                outcome := NullRecorder;
                return;
              }
              log := log + [StopRecording];
              if timerExists {
                log := log + [CancelTimer];
                timerRunning := false;
                timerExists := false;
              }
              progressVisible := false;
              SetProgressBar(CountDownMs);
            case Ready =>
          }
      }
    }

    /** The countdown's onTick, delivered by timer `t`. */
    method OnTick(t: Timer, millisUntilFinished: int)
      requires Valid() && Fires(Snapshot(), t) && IsLong(millisUntilFinished)
      modifies this
      ensures Valid()
      ensures var r := TimerTicked(old(Snapshot()), t, millisUntilFinished);
              Snapshot() == r.next && log == old(log) + r.actions
    {
      progressVisible := true;
      SetProgressBar(millisUntilFinished);
    }

    /** The countdown's onFinish, delivered by timer `t`. */
    method OnFinish(t: Timer) returns (outcome: Outcome)
      requires Valid() && Fires(Snapshot(), t)
      modifies this
      ensures Valid()
      ensures var r := TimerFinished(old(Snapshot()), t);
              Snapshot() == r.next && log == old(log) + r.actions && outcome == r.outcome
    {
      match t {
        case Current => timerRunning := false;
        case Orphan => orphanTimers := orphanTimers - 1;
      }
      progress := 0;
      progressVisible := false;
      if !recorderExists {
        return NullRecorder;
      }
      log := log + [StopRecording, TransitionToHome];
      uiState, state := Home, Ready;
      orphanTimers := RunningTimers(Snapshot());
      timerExists, timerRunning := false, false;
      outcome := Completed;
    }

    method OnPlaybackStopped()
      requires Valid()
      modifies this
      ensures Valid()
      ensures var r := PlaybackStopped(old(Snapshot()));
              Snapshot() == r.next && log == old(log) + r.actions
    {
      log := log + [TransitionToHome];
      uiState, state := Home, Ready;
    }

    /** The player's completion listener, installed by PlayMusic. */
    method OnMusicCompletion()
      requires Valid() && playerExists
      modifies this
      ensures Valid()
      ensures var r := MusicCompleted(old(Snapshot()));
              Snapshot() == r.next && log == old(log) + r.actions
    {
      log := log + [TransitionToHome];
    }

    method OnStop()
      requires Valid()
      modifies this
      ensures Valid()
      ensures var r := Stopped(old(Snapshot()));
              Snapshot() == r.next && log == old(log) + r.actions
    {
      if recorderExists {
        log := log + [CleanupRecorder];
        recorderExists := false;
      }
      if timerExists {
        log := log + [CancelTimer];
        timerRunning := false;
      }
      if playerExists {
        log := log + [ReleasePlayer];
        playerExists := false;
      }
    }

    method Start()
      requires Valid()
      modifies this
      ensures Valid()
      ensures var r := Started(old(Snapshot()));
              Snapshot() == r.next && log == old(log) + r.actions
    {
      recorderExists := true;
      log := log + [CreateRecorder];
    }
  }
}

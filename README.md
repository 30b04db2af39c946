# Speaker activity: playback/recording controller

A model of the controller inside the wearable speaker demo's `MainActivity`. The activity coordinates three activities that exclude one another: recording up to ten seconds of microphone audio, playing that recording back, and playing a bundled music clip. A gesture UI reports which target is expanded: `HOME`, `MIC_UP`, `SOUND_UP` or `MUSIC_UP`. The activity answers by switching its application state between `READY`, `RECORDING`, `PLAYING_VOICE` and `PLAYING_MUSIC`. Along the way it starts and stops the sound recorder, creates and releases the media player, runs a ten-second countdown timer that drives a progress bar, and asks the animation to go back home.

The project has four files:

- `java_arith.dfy` (module `JavaArith`): Java's truncating `long` division and its `(int)` narrowing cast.
- `speaker.dfy` (module `Speaker`): the controller as a value (`Controller`), with one function per event handler. Each function gives the controller after the event and the platform calls the handler made (`Action`, in order). It also says whether the handler ran to its end or died with a NullPointerException on a null sound recorder (`Outcome`).
- `activity.dfy` (module `SpeakerActivity`): the class `MainActivity`. Its mutable fields are the state, the UI state, whether the timer, player and recorder references are non-null, the progress value and visibility, and an append-only `log` of platform calls. Every handler method updates the fields in place. Its `ensures` says the new fields are exactly the matching `Speaker` function of the old ones, and that the log grew by exactly that function's actions.
- `properties.dfy` (module `SpeakerProperties`): one lemma per handler case, and the handlers run over arbitrary event sequences (`Apply`, `Run`).

Timers get special care. A started `CountDownTimer` keeps counting down when the activity overwrites or nulls its reference. The model therefore counts such orphaned timers (`orphanTimers`), and an expiry or tick names the timer it comes from (`Current` or `Orphan`).

## Model

| member | source | states |
|---|---|---|
| JavaArith.Quot | wear/src/main/java/com/example/android/wearable/speaker/MainActivity.java:118 | Java's `/` on a positive divisor rounds toward zero: the remainder lies in [0, b) for a non-negative dividend and in (-b, 0] for a negative one. |
| JavaArith.ToInt | wear/src/main/java/com/example/android/wearable/speaker/MainActivity.java:118 | The `(int)` cast gives a 32-bit value congruent to its argument modulo 2^32, and leaves values that already fit unchanged. |
| Speaker.ProgressFor | wear/src/main/java/com/example/android/wearable/speaker/MainActivity.java:117-119 | The value `setProgressBar` hands to the bar is always a Java `int`. |
| Speaker.SetProgressBar | wear/src/main/java/com/example/android/wearable/speaker/MainActivity.java:117-119 | setProgressBar sets the progress value to `ProgressFor(millis)` and keeps the controller well-formed. |
| Speaker.Initial | wear/src/main/java/com/example/android/wearable/speaker/MainActivity.java:68-78 | The new activity is READY at HOME, well-formed and coherent, with no timer counting down. |
| Speaker.Expire | wear/src/main/java/com/example/android/wearable/speaker/MainActivity.java:138-157 | An expired countdown stops: one fewer timer is running, and the reference is untouched. |
| Speaker.DropTimer | wear/src/main/java/com/example/android/wearable/speaker/MainActivity.java:154 | Nulling `mCountDownTimer` leaves no reference but stops no timer: the number running is unchanged. |
| Speaker.StartNewTimer | wear/src/main/java/com/example/android/wearable/speaker/MainActivity.java:138-157 | Creating and starting a timer makes it the referenced, running one, and one more timer is running. |
| Speaker.PlayMusic | wear/src/main/java/com/example/android/wearable/speaker/MainActivity.java:195-208 | playMusic always completes, and a player exists afterwards. |
| Speaker.StopMusic | wear/src/main/java/com/example/android/wearable/speaker/MainActivity.java:213-219 | stopMusic always completes, and no player exists afterwards. |
| Speaker.UIStateChanged | wear/src/main/java/com/example/android/wearable/speaker/MainActivity.java:121-190 | onUIStateChanged keeps the controller well-formed, and keeps the application state matched to the UI state. |
| Speaker.HomeRequested | wear/src/main/java/com/example/android/wearable/speaker/MainActivity.java:164-188 | The HOME case keeps the controller well-formed. From any state but READY it ends at READY/HOME, even when it crashes on a null recorder. |
| Speaker.TimerTicked | wear/src/main/java/com/example/android/wearable/speaker/MainActivity.java:139-144 | A tick keeps the controller well-formed and changes neither the state nor the UI state. |
| Speaker.TimerFinished | wear/src/main/java/com/example/android/wearable/speaker/MainActivity.java:146-155 | onFinish keeps the controller well-formed and coherent, and one fewer timer is running afterwards. |
| Speaker.PlaybackStopped | wear/src/main/java/com/example/android/wearable/speaker/MainActivity.java:351-356 | onPlaybackStopped keeps the controller well-formed and always ends coherent. |
| Speaker.MusicCompleted | wear/src/main/java/com/example/android/wearable/speaker/MainActivity.java:198-205 | The music completion listener only asks for the animation home. It changes no field. |
| Speaker.Stopped | wear/src/main/java/com/example/android/wearable/speaker/MainActivity.java:334-349 | onStop keeps the controller well-formed and changes neither the state nor the UI state. |
| Speaker.Started | wear/src/main/java/com/example/android/wearable/speaker/MainActivity.java:304-305 | start() keeps the controller well-formed and changes neither the state nor the UI state. |
| SpeakerActivity.MainActivity.constructor | wear/src/main/java/com/example/android/wearable/speaker/MainActivity.java:68-78 | The fields start as `Speaker.Initial` and the log is empty. |
| SpeakerActivity.MainActivity.SetProgressBar | wear/src/main/java/com/example/android/wearable/speaker/MainActivity.java:117-119 | Only the progress field changes, to `Speaker.ProgressFor(millis)`. |
| SpeakerActivity.MainActivity.PlayMusic | wear/src/main/java/com/example/android/wearable/speaker/MainActivity.java:195-208 | The fields and log after the call are those of `Speaker.PlayMusic`. |
| SpeakerActivity.MainActivity.StopMusic | wear/src/main/java/com/example/android/wearable/speaker/MainActivity.java:213-219 | The fields and log after the call are those of `Speaker.StopMusic`. |
| SpeakerActivity.MainActivity.OnUIStateChanged | wear/src/main/java/com/example/android/wearable/speaker/MainActivity.java:121-190 | The nested switches update the fields in place. The result, the appended log and the outcome are exactly those of `Speaker.UIStateChanged`, and the object stays valid. |
| SpeakerActivity.MainActivity.OnTick | wear/src/main/java/com/example/android/wearable/speaker/MainActivity.java:139-144 | The fields after a tick are those of `Speaker.TimerTicked`. |
| SpeakerActivity.MainActivity.OnFinish | wear/src/main/java/com/example/android/wearable/speaker/MainActivity.java:146-155 | The fields, log and outcome after the finish are those of `Speaker.TimerFinished`. |
| SpeakerActivity.MainActivity.OnPlaybackStopped | wear/src/main/java/com/example/android/wearable/speaker/MainActivity.java:351-356 | The fields and log after the call are those of `Speaker.PlaybackStopped`. |
| SpeakerActivity.MainActivity.OnMusicCompletion | wear/src/main/java/com/example/android/wearable/speaker/MainActivity.java:198-205 | The fields and log after the call are those of `Speaker.MusicCompleted`. |
| SpeakerActivity.MainActivity.OnStop | wear/src/main/java/com/example/android/wearable/speaker/MainActivity.java:334-349 | The fields and log after the call are those of `Speaker.Stopped`. |
| SpeakerActivity.MainActivity.Start | wear/src/main/java/com/example/android/wearable/speaker/MainActivity.java:304-305 | The fields and log after the call are those of `Speaker.Started`. |
| SpeakerProperties.FullCountdownShowsTen | wear/src/main/java/com/example/android/wearable/speaker/MainActivity.java:64-65 | setProgressBar(COUNT_DOWN_MS) shows 10. |
| SpeakerProperties.ProgressIsWholeSeconds | wear/src/main/java/com/example/android/wearable/speaker/MainActivity.java:117-119 | The bar shows the truncated quotient `millis / 1000` if and only if that quotient fits in an `int`. |
| SpeakerProperties.ProgressRoundsDown | wear/src/main/java/com/example/android/wearable/speaker/MainActivity.java:117-119 | For 0 <= millis < 2^31 seconds, the bar shows p with p*1000 <= millis < (p+1)*1000. |
| SpeakerProperties.ProgressOfNegativeRoundsUp | wear/src/main/java/com/example/android/wearable/speaker/MainActivity.java:118 | Truncation goes toward zero: -1500 ms shows -1, not -2. |
| SpeakerProperties.ProgressWrapsAround | wear/src/main/java/com/example/android/wearable/speaker/MainActivity.java:118 | 2^31 seconds overflows the `(int)` cast to Integer.MIN_VALUE. |
| SpeakerProperties.SameUIStateIsIgnored | wear/src/main/java/com/example/android/wearable/speaker/MainActivity.java:124-126 | Reporting the current UI state changes no field and makes no call. |
| SpeakerProperties.MusicUpPlaysMusic | wear/src/main/java/com/example/android/wearable/speaker/MainActivity.java:128-132 | A new MUSIC_UP ends at PLAYING_MUSIC/MUSIC_UP with a player, creates one only if none existed, starts it, and changes nothing else. |
| SpeakerProperties.MicUpStartsRecording | wear/src/main/java/com/example/android/wearable/speaker/MainActivity.java:133-158 | With a recorder, a new MIC_UP ends at RECORDING/MIC_UP, starts recording, sets progress to 10, and creates and starts a referenced timer. One more timer is running, and the player and visibility are untouched. |
| SpeakerProperties.SoundUpPlaysVoice | wear/src/main/java/com/example/android/wearable/speaker/MainActivity.java:159-163 | With a recorder, a new SOUND_UP ends at PLAYING_VOICE/SOUND_UP, makes only the startPlay call, and changes nothing else. |
| SpeakerProperties.HomeStopsRecording | wear/src/main/java/com/example/android/wearable/speaker/MainActivity.java:176-186 | HOME while RECORDING ends at READY/HOME and calls stopRecording. It cancels the timer exactly when one is referenced, and leaves none referenced or running. The bar is hidden and reset to 10. |
| SpeakerProperties.HomeStopsMusic | wear/src/main/java/com/example/android/wearable/speaker/MainActivity.java:166-170 | HOME while PLAYING_MUSIC ends at READY/HOME with no player. It stops and releases the player exactly when one existed, and changes nothing else. |
| SpeakerProperties.HomeStopsVoice | wear/src/main/java/com/example/android/wearable/speaker/MainActivity.java:171-175 | HOME while PLAYING_VOICE ends at READY/HOME, calls only stopPlaying, and changes nothing else. |
| SpeakerProperties.HomeWhileReadyIsIgnored | wear/src/main/java/com/example/android/wearable/speaker/MainActivity.java:164-188 | HOME while READY, with the UI away from HOME, changes nothing, not even the UI state, because the inner switch has no READY case. |
| SpeakerProperties.UIStateChangedFailsOnlyWithoutRecorder | wear/src/main/java/com/example/android/wearable/speaker/MainActivity.java:133-179 | The handler throws on a null recorder if and only if it reaches a recorder call: a new MIC_UP or SOUND_UP, or HOME while RECORDING or PLAYING_VOICE. The state and UI state assigned before that call remain, and no call is logged. |
| SpeakerProperties.FinishGoesHome | wear/src/main/java/com/example/android/wearable/speaker/MainActivity.java:146-155 | With a recorder, a finishing countdown sets progress 0 and hides the bar. It calls stopRecording and then transitionToHome, ends at READY/HOME, and leaves no timer referenced. One fewer timer is running. |
| SpeakerProperties.TickShowsRemainingSeconds | wear/src/main/java/com/example/android/wearable/speaker/MainActivity.java:139-144 | A tick within the countdown shows the bar with the remaining whole seconds and changes nothing else. |
| SpeakerProperties.PlaybackStoppedKeepsTimer | wear/src/main/java/com/example/android/wearable/speaker/MainActivity.java:351-356 | onPlaybackStopped sets READY/HOME, requests the animation home, and leaves the timer and every other field alone. |
| SpeakerProperties.PlayMusicCreatesOnlyWhenMissing | wear/src/main/java/com/example/android/wearable/speaker/MainActivity.java:195-208 | playMusic leaves a player. It creates one if and only if none existed, and its last call always starts the player. |
| SpeakerProperties.StopMusicIsIdempotent | wear/src/main/java/com/example/android/wearable/speaker/MainActivity.java:213-219 | stopMusic leaves no player, and a second stopMusic changes nothing and makes no call. |
| SpeakerProperties.StopReleasesEverything | wear/src/main/java/com/example/android/wearable/speaker/MainActivity.java:334-349 | onStop leaves neither recorder nor player. It cancels a referenced timer (and only then) but keeps the reference. Orphaned timers, the state and the UI state are unchanged. |
| SpeakerProperties.Apply | wear/src/main/java/com/example/android/wearable/speaker/MainActivity.java:121-356 | Any single event keeps the controller well-formed and coherent. |
| SpeakerProperties.Run | wear/src/main/java/com/example/android/wearable/speaker/MainActivity.java:121-356 | Any sequence of events, stopped at the first crash, keeps the controller well-formed and coherent. |
| SpeakerProperties.IdleAwayFromHomeIsUnreachable | wear/src/main/java/com/example/android/wearable/speaker/MainActivity.java:164-188 | From the new activity, every sequence of events ends with READY if and only if the UI is at HOME. So the fall-through of HOME while READY never occurs. |
| SpeakerProperties.DisciplinedStepKeepsTimerInvariant | wear/src/main/java/com/example/android/wearable/speaker/MainActivity.java:121-356 | One event that obeys the gesture discipline keeps the timer invariant: no orphaned timer, and a running countdown only while RECORDING. |
| SpeakerProperties.DisciplinedRunKeepsTimerInvariant | wear/src/main/java/com/example/android/wearable/speaker/MainActivity.java:121-356 | The timer invariant holds after every disciplined sequence of events that does not crash. |
| SpeakerProperties.FinishOnlyWhileRecording | wear/src/main/java/com/example/android/wearable/speaker/MainActivity.java:146-155 | Under the timer invariant, only the referenced countdown can finish, and only at RECORDING/MIC_UP. |
| SpeakerProperties.StrayCountdownAfterDirectSwitch | wear/src/main/java/com/example/android/wearable/speaker/MainActivity.java:133-175 | Without the discipline, MIC_UP then SOUND_UP then HOME leaves the countdown running at READY/HOME. Its finish then calls stopRecording while nothing records. |

"Well-formed" (`Speaker.Wellformed`) means that a running timer is referenced and that the progress value is a Java `int`. "Coherent" (`Speaker.Coherent`) means that the application state is the one paired with the UI state: HOME with READY, MIC_UP with RECORDING, SOUND_UP with PLAYING_VOICE, MUSIC_UP with PLAYING_MUSIC.

The "gesture discipline" (`SpeakerProperties.GestureDiscipline`) is an assumption about the animation: it moves only between HOME and one expanded target. It also assumes voice playback reports its end only while PLAYING_VOICE. Both collaborators are outside this model, so the discipline is a hypothesis of the lemmas that use it, not a fact proved about the source.

## Left out

- The internals of `SoundRecorder`, `UIAnimation`, `MediaPlayer` and `CountDownTimer` are not part of this model: their calls are entries in the action log. A `transitionToHome` that later makes the animation report HOME appears as a separate `UIChanged(Home)` event, not inside the handler that asked for it.
- `mUIAnimation` is assumed non-null whenever an event arrives. It is the object that delivers the UI events, and it is created together with the recorder in `start()`.
- `MediaPlayer.create` returning null is not modelled. It is a platform failure.
- The progress bar stores the value passed to `setProgress`. The platform's clamping of that value to the bar's range is not modelled. Neither is the layout, which supplies the bar's initial value and visibility (constructor parameters here).
- Real-time ticking is left out: timing is not modelled. Ticks and expiries are events that may arrive whenever their timer is running, in any order relative to other events.
- Permission checking and its result callback are left out. They are platform prompts.
- Speech recognition, `URLEncoder`, the browser intent and text-to-speech are left out. They are foreign library calls.
- Ambient-mode colour switching is left out. It is UI styling.
- `speakerIsSupported` and the click handler `onStart` installs without a speaker are left out. They are device queries.
- The view lookups in `onCreate` and `start()` are left out. Only the creation of the sound recorder in `start()` is modelled.
- Logging calls are left out.

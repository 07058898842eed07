# HLS audio player coordinator, modelled and verified in Dafny

This project models the core of the `exowrap-hls-audio` Android library. The
library has two parts:

- `HlsPlayer` puts a small playback state machine in front of an ExoPlayer
  engine and an HLS media source. The engine sends callbacks (BUFFERING,
  READY, ENDED, IDLE, errors, timeline changes, load errors). The application
  sends commands (play, pause, destroy, seek, speed, duration). The player
  answers by calling its listener and the engine.
- `SeekNotifier` polls the engine's position on an Android `Handler` by
  re-posting itself, until it is stopped.

The model has two layers. Both are proved to agree.

- **`CoordinatorSpec`** (`coordinator_spec.dfy`) is a pure specification.
  - A coordinator state is the player's `state`, whether it holds a
    `seekNotifier`, and the write-once `totalDuration`.
  - Each Java method is a function. It returns the next state, the ordered
    log of every outward call (listener, engine or media source, notifier
    created/started or stopped) and the exception it throws, if any.
  - `Then` runs steps in sequence and stops at a throw, the way the Java
    methods compose.
- **`CoordinatorRuns`** (`coordinator_runs.dfy`) takes any sequence of
  inputs: every command, every callback, and the ticks of an attached
  notifier. It proves three invariants over all of them:
  - until destroyed, the notifier is held exactly in PLAYING and BUFFERING_IN_PLAY;
  - DESTROYED is final and silent;
  - the listener's last reported state is always the player's state.
- **`CoordinatorProperties`** (`coordinator_properties.dfy`) proves the
  behaviours single operations promise and the scenarios the unit tests
  pin down.
- **`Playback`** (`playback.dfy`) is the imperative model.
  - The classes `HlsPlayer`, `SeekNotifier` and `Handler` have the source's
    fields. The handler is a FIFO queue of posted polls.
  - Every `HlsPlayer` method is proved to take exactly the step of its
    `CoordinatorSpec` function. Its new fields are the step's state, its
    `calls` log gains the step's calls, and it returns the step's exception.
  - The object-level facts about notifiers are proved as well:
    - a notifier is fresh and attached when play() creates it;
    - a notifier is detached when pause() drops it;
    - a detached notifier's queued poll does nothing and is not re-posted;
    - the notifier left attached by destroy() keeps polling silently.
- **`PlaybackScenarios`** (`playback_scenarios.dfy`) runs whole lives of a
  player and its notifier on one handler.

Constants are the engine's own:
- `STATE_IDLE` = 1, `STATE_BUFFERING` = 2, `STATE_READY` = 3, `STATE_ENDED` = 4;
- `TIMELINE_CHANGE_REASON_PREPARED` = 0, `RESET` = 1, `DYNAMIC` = 2;
- `C.TIME_UNSET` = `Long.MIN_VALUE + 1`.

Behaviours that one might not expect, modelled as the code has them:
- A failed guard calls `destroy()` before it throws, so a rejected command
  leaves the player DESTROYED.
- `play()` from BUFFERING_IN_PAUSE goes straight to PLAYING.
- `pause()` accepts INITIALIZED.
- READY ignores `playWhenReady`.
- BUFFERING in BUFFERING_IN_PAUSE throws without destroying.
- ENDED is a no-op only from PAUSED. So a second ENDED after one from
  BUFFERING_IN_PLAY fires `onEnded` again, destroys and throws
  (`CoordinatorProperties.EndedTwiceAfterBufferingInPlay`).
- `destroy()` neither stops nor clears the notifier.
- `setSpeed` forwards the speed unchanged.

## Model

| member | source | states |
|---|---|---|
| CoordinatorSpec.Destroy | exowrap-hls-audio/src/main/java/jp/s64/android/exowrap/hls/audio/HlsPlayer.java:392-400 | Ends DESTROYED and never throws. From DESTROYED it calls nothing. Otherwise it unregisters from the media source and the engine, releases the engine and reports DESTROYED, in that order. The notifier flag is untouched. |
| CoordinatorSpec.SetState | exowrap-hls-audio/src/main/java/jp/s64/android/exowrap/hls/audio/HlsPlayer.java:454-457 | Writes the state and makes one call, which reports the new state to the listener. Nothing is thrown. |
| CoordinatorSpec.IsBuffering | exowrap-hls-audio/src/main/java/jp/s64/android/exowrap/hls/audio/HlsPlayer.java:359-361 | A plain definition: true exactly in BUFFERING_IN_PLAY and BUFFERING_IN_PAUSE. |
| CoordinatorSpec.Reject | exowrap-hls-audio/src/main/java/jp/s64/android/exowrap/hls/audio/HlsPlayer.java:409-442 | A failed guard ends DESTROYED, makes exactly destroy()'s calls, keeps the notifier flag and the duration, and throws IllegalStateException. |
| CoordinatorSpec.AssertInitialized | exowrap-hls-audio/src/main/java/jp/s64/android/exowrap/hls/audio/HlsPlayer.java:409-414 | Passes, changing nothing, exactly when not DESTROYED. Otherwise it rejects (destroy, then IllegalStateException). |
| CoordinatorSpec.AssertPaused | exowrap-hls-audio/src/main/java/jp/s64/android/exowrap/hls/audio/HlsPlayer.java:416-421 | Passes exactly in PAUSED and BUFFERING_IN_PAUSE. Otherwise it rejects. |
| CoordinatorSpec.AssertPausable | exowrap-hls-audio/src/main/java/jp/s64/android/exowrap/hls/audio/HlsPlayer.java:423-428 | Passes exactly outside DESTROYED and PAUSED. Otherwise it rejects. |
| CoordinatorSpec.AssertBufferingPausable | exowrap-hls-audio/src/main/java/jp/s64/android/exowrap/hls/audio/HlsPlayer.java:430-435 | Passes exactly outside DESTROYED and BUFFERING_IN_PAUSE. Otherwise it rejects. |
| CoordinatorSpec.AssertBuffering | exowrap-hls-audio/src/main/java/jp/s64/android/exowrap/hls/audio/HlsPlayer.java:437-442 | Passes exactly in BUFFERING_IN_PLAY and BUFFERING_IN_PAUSE. Otherwise it rejects. |
| CoordinatorSpec.Init | exowrap-hls-audio/src/main/java/jp/s64/android/exowrap/hls/audio/HlsPlayer.java:316-327 | Succeeds exactly from INITIALIZED, without a state change or a listener call. It first clears playWhenReady, registers with the engine and the media source, and never releases. Any other state rejects. |
| CoordinatorSpec.PlayFrom | exowrap-hls-audio/src/main/java/jp/s64/android/exowrap/hls/audio/HlsPlayer.java:336-353 | Succeeds iff its guard holds: buffering when both flags are set, PAUSED or BUFFERING_IN_PAUSE otherwise. Success gives PLAYING with a notifier: it reports PLAYING, sets playWhenReady, and creates and starts a notifier only if none is held. Failure rejects. |
| CoordinatorSpec.Play | exowrap-hls-audio/src/main/java/jp/s64/android/exowrap/hls/audio/HlsPlayer.java:329-334 | Succeeds exactly from PAUSED or BUFFERING_IN_PAUSE, both going straight to PLAYING, with the calls of PlayFrom. Any other state rejects (destroy, then IllegalStateException). |
| CoordinatorSpec.PauseFrom | exowrap-hls-audio/src/main/java/jp/s64/android/exowrap/hls/audio/HlsPlayer.java:363-377 | Succeeds iff not DESTROYED and not already in its target state. It stops and drops a held notifier, clears playWhenReady, then reports BUFFERING_IN_PAUSE or PAUSED. Failure rejects. |
| CoordinatorSpec.Pause | exowrap-hls-audio/src/main/java/jp/s64/android/exowrap/hls/audio/HlsPlayer.java:355-361 | Succeeds exactly from INITIALIZED, PLAYING and BUFFERING_IN_PLAY. BUFFERING_IN_PLAY goes to BUFFERING_IN_PAUSE and the others to PAUSED, with the notifier stopped. Otherwise it rejects (destroy, then IllegalStateException). |
| CoordinatorSpec.SetSeekPosition | exowrap-hls-audio/src/main/java/jp/s64/android/exowrap/hls/audio/HlsPlayer.java:402-407 | Succeeds exactly when not DESTROYED. It then seeks to the position in window 0 and changes nothing else. When DESTROYED it throws with no calls. |
| CoordinatorSpec.SetSpeed | exowrap-hls-audio/src/main/java/jp/s64/android/exowrap/hls/audio/HlsPlayer.java:476-486 | Succeeds exactly when not DESTROYED. It then makes one call, setting parameters with the given speed and the engine's current pitch and skip-silence flag. |
| CoordinatorSpec.GetSpeed | exowrap-hls-audio/src/main/java/jp/s64/android/exowrap/hls/audio/HlsPlayer.java:488-491 | Returns the engine's speed exactly when not DESTROYED. Otherwise it throws IllegalStateException. |
| CoordinatorSpec.SetTotalDuration | exowrap-hls-audio/src/main/java/jp/s64/android/exowrap/hls/audio/HlsPlayer.java:459-465 | Makes no calls. Succeeds exactly when not DESTROYED and no duration is known; the duration then becomes known. Otherwise it throws and leaves the coordinator unchanged. |
| CoordinatorSpec.GetTotalDuration | exowrap-hls-audio/src/main/java/jp/s64/android/exowrap/hls/audio/HlsPlayer.java:467-474 | Returns a value exactly when not DESTROYED and the duration is known, and the value is that duration. Otherwise it throws IllegalStateException. |
| CoordinatorSpec.NotifySeekPositionManually | exowrap-hls-audio/src/main/java/jp/s64/android/exowrap/hls/audio/HlsPlayer.java:516-520 | Changes nothing, throws nothing, and makes one call: reporting the given engine position to the listener. |
| CoordinatorSpec.EndPlayback | exowrap-hls-audio/src/main/java/jp/s64/android/exowrap/hls/audio/HlsPlayer.java:379-390 | From a live non-PAUSED state other than BUFFERING_IN_PAUSE, the order is onEnded, then the pause calls, then seekTo(0,0), then a report of the engine's position. The player ends PAUSED, or BUFFERING_IN_PAUSE coming from BUFFERING_IN_PLAY, without a notifier. From BUFFERING_IN_PAUSE: onEnded, then destroy, then IllegalStateException. |
| CoordinatorSpec.OnEnded | exowrap-hls-audio/src/main/java/jp/s64/android/exowrap/hls/audio/HlsPlayer.java:379-390 | DESTROYED throws with no calls. PAUSED is a no-op. Every other state ends playback as EndPlayback states. |
| CoordinatorSpec.DestroyWithError | exowrap-hls-audio/src/main/java/jp/s64/android/exowrap/hls/audio/HlsPlayer.java:444-452 | Always ends DESTROYED without throwing. It calls nothing once destroyed; otherwise it calls onError and then does destroy(). |
| CoordinatorSpec.OnPlayerStateChanged | exowrap-hls-audio/src/main/java/jp/s64/android/exowrap/hls/audio/HlsPlayer.java:137-177 | The full table. BUFFERING or READY on a destroyed player throws. BUFFERING: INITIALIZED/PAUSED go to BUFFERING_IN_PAUSE, PLAYING/BUFFERING_IN_PLAY go to BUFFERING_IN_PLAY (re-reported, notifier kept), BUFFERING_IN_PAUSE throws without destroying. READY: INITIALIZED/BUFFERING_IN_PAUSE go to PAUSED, BUFFERING_IN_PLAY goes to PLAYING, PLAYING/PAUSED are unchanged and silent. ENDED is onEnded (CoordinatorSpec.OnEnded). IDLE is destroy(). An unknown state destroys and throws IllegalArgumentException. |
| CoordinatorSpec.OnPlayerError | exowrap-hls-audio/src/main/java/jp/s64/android/exowrap/hls/audio/HlsPlayer.java:131-134 | Always ends DESTROYED without throwing. Once destroyed it calls nothing. Otherwise it calls onError, unregisters, releases and reports DESTROYED, so the listener hears onError then DESTROYED. |
| CoordinatorSpec.TimelineRefusal | exowrap-hls-audio/src/main/java/jp/s64/android/exowrap/hls/audio/HlsPlayer.java:187-218 | Names the refusal of an acceptable-reason timeline. A window count other than one (zero windows included) gives MultiWindow. One window but not single-period gives MultiPeriod. Single-period with an unset duration or a dynamic window gives DynamicStream. It accepts exactly the remaining timelines. |
| CoordinatorSpec.OnTimelineChanged | exowrap-hls-audio/src/main/java/jp/s64/android/exowrap/hls/audio/HlsPlayer.java:180-221 | RESET and DYNAMIC throw without a state change. A zero-window, multi-window, multi-period, unset-duration or dynamic timeline destroys with an UnsupportedOperation error naming the reason. Any other timeline sets the total duration to window 0's duration. |
| CoordinatorSpec.OnLoadError | exowrap-hls-audio/src/main/java/jp/s64/android/exowrap/hls/audio/HlsPlayer.java:275-286 | Never changes the coordinator or throws. It warns the listener with the error iff not DESTROYED, not cancelled and an error is present, and calls nothing otherwise. |
| CoordinatorSpec.LiveTick | exowrap-hls-audio/src/main/java/jp/s64/android/exowrap/hls/audio/SeekNotifier.java:32-40 | A tick of an attached notifier changes nothing and never throws. It reports the position iff the player is PLAYING. |
| CoordinatorRuns.ApplyKeeps | exowrap-hls-audio/src/main/java/jp/s64/android/exowrap/hls/audio/HlsPlayer.java:113-520 | Every entry point keeps the notifier invariant. Once DESTROYED, nothing changes and nothing is called. A known total duration never changes. |
| CoordinatorRuns.DestroyedIsFinal | exowrap-hls-audio/src/main/java/jp/s64/android/exowrap/hls/audio/HlsPlayer.java:392-400 | After DESTROYED, any sequence of inputs, including ticks of a notifier left attached, changes nothing and calls nothing. |
| CoordinatorRuns.RunKeepsConsistent | exowrap-hls-audio/src/main/java/jp/s64/android/exowrap/hls/audio/HlsPlayer.java:349-352 | Any sequence of inputs keeps the invariant: until destroyed, the notifier is held exactly in PLAYING and BUFFERING_IN_PLAY. |
| CoordinatorRuns.ReachableIsConsistent | exowrap-hls-audio/src/main/java/jp/s64/android/exowrap/hls/audio/HlsPlayer.java:370-373 | Every state reachable after construction satisfies the notifier invariant. |
| CoordinatorRuns.DurationIsWriteOnce | exowrap-hls-audio/src/main/java/jp/s64/android/exowrap/hls/audio/HlsPlayer.java:459-465 | Once known, the total duration never changes, whatever inputs follow. |
| CoordinatorRuns.InitReports | exowrap-hls-audio/src/main/java/jp/s64/android/exowrap/hls/audio/HlsPlayer.java:316-327 | After init(), the last reported state is the new state: unchanged and silent on success, DESTROYED on rejection. |
| CoordinatorRuns.QuietCommandReports | exowrap-hls-audio/src/main/java/jp/s64/android/exowrap/hls/audio/HlsPlayer.java:402-491 | Seeks, speed changes and the getters report nothing and keep the state, so the last report stays the state. |
| CoordinatorRuns.DestroyReports | exowrap-hls-audio/src/main/java/jp/s64/android/exowrap/hls/audio/HlsPlayer.java:392-400 | destroy() and a failed guard leave the listener's last reported state equal to the new state. |
| CoordinatorRuns.PlayFromReports | exowrap-hls-audio/src/main/java/jp/s64/android/exowrap/hls/audio/HlsPlayer.java:336-353 | After play, the last reported state is the new state. |
| CoordinatorRuns.PauseFromReports | exowrap-hls-audio/src/main/java/jp/s64/android/exowrap/hls/audio/HlsPlayer.java:363-377 | After pause, the last reported state is the new state. |
| CoordinatorRuns.OnEndedReports | exowrap-hls-audio/src/main/java/jp/s64/android/exowrap/hls/audio/HlsPlayer.java:379-390 | After ENDED, the last reported state is the new state. |
| CoordinatorRuns.DestroyWithErrorReports | exowrap-hls-audio/src/main/java/jp/s64/android/exowrap/hls/audio/HlsPlayer.java:444-452 | After destroyWithError, the last reported state is the new state. |
| CoordinatorRuns.PlayerStateChangedReports | exowrap-hls-audio/src/main/java/jp/s64/android/exowrap/hls/audio/HlsPlayer.java:137-177 | After every engine state callback, the last reported state is the new state. |
| CoordinatorRuns.CommandReports | exowrap-hls-audio/src/main/java/jp/s64/android/exowrap/hls/audio/HlsPlayer.java:316-491 | After every user command, the last reported state is the new state. |
| CoordinatorRuns.CallbackReports | exowrap-hls-audio/src/main/java/jp/s64/android/exowrap/hls/audio/HlsPlayer.java:131-286 | After every engine or media-source callback and every notifier tick, the last reported state is the new state. |
| CoordinatorRuns.StepReportsState | exowrap-hls-audio/src/main/java/jp/s64/android/exowrap/hls/audio/HlsPlayer.java:454-457 | For every input, the listener's last reported state is the coordinator's new state. |
| CoordinatorRuns.ListenerTracksState | exowrap-hls-audio/src/main/java/jp/s64/android/exowrap/hls/audio/HlsPlayer.java:454-457 | After any sequence of inputs, the state the listener last heard of is the coordinator's state. |
| CoordinatorProperties.DestroyIsIdempotent | exowrap-hls-audio/src/main/java/jp/s64/android/exowrap/hls/audio/HlsPlayer.java:393-395 | A second destroy() changes nothing and calls nothing. |
| CoordinatorProperties.InitFromInitial | exowrap-hls-audio/src/main/java/jp/s64/android/exowrap/hls/audio/HlsPlayer.java:316-327 | From the field initialisers, init() clears playWhenReady, registers with the source and the engine, and prepares, in that order. |
| CoordinatorProperties.DestroyEffects | exowrap-hls-audio/src/main/java/jp/s64/android/exowrap/hls/audio/HlsPlayer.java:392-400 | From any live state, destroy() makes exactly its four calls, in order. |
| CoordinatorProperties.InitThenDestroyPairs | exowrap-hls-audio/src/test/java/jp/s64/android/exowrap/hls/audio/HlsPlayerTest.kt:48-86 | Construction followed by destroy() undoes each registration once and releases the engine. The listener hears exactly one thing: DESTROYED. |
| CoordinatorProperties.TotalDurationRoundTrip | exowrap-hls-audio/src/main/java/jp/s64/android/exowrap/hls/audio/HlsPlayer.java:459-474 | A duration that was set successfully is the one getTotalDuration returns. |
| CoordinatorProperties.SpeedRoundTrip | exowrap-hls-audio/src/main/java/jp/s64/android/exowrap/hls/audio/HlsPlayer.java:476-491 | After setSpeed, getSpeed on the parameters handed to the engine returns the speed that was set. |
| CoordinatorProperties.PlayThenPause | exowrap-hls-audio/src/test/java/jp/s64/android/exowrap/hls/audio/HlsPlayerTest.kt:281-333 | play() and then pause() from PAUSED return exactly to the starting coordinator. The notifier created by play is the one pause stops, and the listener hears PLAYING then PAUSED. |
| CoordinatorProperties.EndedEffects | exowrap-hls-audio/src/main/java/jp/s64/android/exowrap/hls/audio/HlsPlayer.java:379-390 | ENDED from INITIALIZED or PLAYING makes its calls in order: onEnded, the notifier stop, playWhenReady false, PAUSED, seekTo(0,0), then the position report. |
| CoordinatorProperties.EndedListenerSequence | exowrap-hls-audio/src/test/java/jp/s64/android/exowrap/hls/audio/HlsPlayerTest.kt:569-604 | ENDED from INITIALIZED or PLAYING: the listener hears onEnded, then PAUSED, then the engine's position. |
| CoordinatorProperties.EndedTwiceIsSilent | exowrap-hls-audio/src/main/java/jp/s64/android/exowrap/hls/audio/HlsPlayer.java:379-390 | An ENDED that leaves the player PAUSED makes a repeated ENDED a silent no-op. |
| CoordinatorProperties.EndedTwiceAfterBufferingInPlay | exowrap-hls-audio/src/main/java/jp/s64/android/exowrap/hls/audio/HlsPlayer.java:379-390 | ENDED from BUFFERING_IN_PLAY leaves BUFFERING_IN_PAUSE. A second ENDED then calls onEnded again, destroys and throws IllegalStateException. |
| CoordinatorProperties.ReadyIgnoresPlayWhenReady | exowrap-hls-audio/src/main/java/jp/s64/android/exowrap/hls/audio/HlsPlayer.java:154-166 | READY's outcome does not depend on the playWhenReady flag. |
| CoordinatorProperties.ScenarioBuffering | exowrap-hls-audio/src/test/java/jp/s64/android/exowrap/hls/audio/HlsPlayerTest.kt:113-135 | BUFFERING on a fresh player gives BUFFERING_IN_PAUSE with playWhenReady false. |
| CoordinatorProperties.ScenarioReady | exowrap-hls-audio/src/test/java/jp/s64/android/exowrap/hls/audio/HlsPlayerTest.kt:167-187 | READY from BUFFERING_IN_PAUSE gives PAUSED. |
| CoordinatorProperties.ScenarioPlay | exowrap-hls-audio/src/test/java/jp/s64/android/exowrap/hls/audio/HlsPlayerTest.kt:311-333 | play() from PAUSED without a notifier gives PLAYING and starts one notifier. |
| CoordinatorProperties.ScenarioPause | exowrap-hls-audio/src/test/java/jp/s64/android/exowrap/hls/audio/HlsPlayerTest.kt:281-305 | pause() from PLAYING stops the notifier and gives PAUSED. |
| CoordinatorProperties.ScenarioFromPaused | exowrap-hls-audio/src/test/java/jp/s64/android/exowrap/hls/audio/HlsPlayerTest.kt:281-333 | play() then pause() as a run from PAUSED returns to PAUSED, with those calls in order. |
| CoordinatorProperties.ScenarioFromBuffering | exowrap-hls-audio/src/test/java/jp/s64/android/exowrap/hls/audio/HlsPlayerTest.kt:167-187 | READY, play() and pause() as a run from BUFFERING_IN_PAUSE end PAUSED, with those calls in order. |
| CoordinatorProperties.BufferReadyPlayPause | exowrap-hls-audio/src/test/java/jp/s64/android/exowrap/hls/audio/HlsPlayerTest.kt:113-333 | From construction, BUFFERING, READY, play() and pause() end PAUSED without a notifier, with the exact ten calls in order. |
| Playback.Handler.constructor | exowrap-hls-audio/src/main/java/jp/s64/android/exowrap/hls/audio/HlsPlayer.java:113-126 | The handler handed to the player starts with an empty queue, and is valid. |
| Playback.Handler.PostDelayed | exowrap-hls-audio/src/main/java/jp/s64/android/exowrap/hls/audio/SeekNotifier.java:48 | Posting appends one runnable, with its delay, at the end of the queue. |
| Playback.Handler.RunNext | exowrap-hls-audio/src/main/java/jp/s64/android/exowrap/hls/audio/SeekNotifier.java:29-42 | Runs the oldest queued poll. A stopped notifier's poll does nothing, is dropped and is not re-posted. An attached notifier's poll leaves the player's state unchanged, appends its tick calls (a report only while PLAYING) and re-posts itself with the interval. The owning player stays valid. |
| Playback.SeekNotifier.constructor | exowrap-hls-audio/src/main/java/jp/s64/android/exowrap/hls/audio/SeekNotifier.java:15-18 | Stores the handler and the interval, with no player attached. |
| Playback.SeekNotifier.Stop | exowrap-hls-audio/src/main/java/jp/s64/android/exowrap/hls/audio/SeekNotifier.java:20-22 | Detaches the player and nothing else, so queued polls stay queued. |
| Playback.SeekNotifier.Start | exowrap-hls-audio/src/main/java/jp/s64/android/exowrap/hls/audio/SeekNotifier.java:24-27 | Attaches the player and queues exactly one poll, with delay 0. |
| Playback.SeekNotifier.PostDelayed | exowrap-hls-audio/src/main/java/jp/s64/android/exowrap/hls/audio/SeekNotifier.java:44-49 | Throws IllegalStateException iff no player is attached, posting nothing. Otherwise it posts one poll with the given delay. |
| Playback.SeekNotifier.Run | exowrap-hls-audio/src/main/java/jp/s64/android/exowrap/hls/audio/SeekNotifier.java:29-42 | Does nothing once detached. Otherwise it keeps the player attached, reports the position only while the player is PLAYING, leaves the player's state as it was, and re-posts with the interval. |
| Playback.HlsPlayer.constructor | exowrap-hls-audio/src/main/java/jp/s64/android/exowrap/hls/audio/HlsPlayer.java:113-126 | Starts INITIALIZED with no notifier and no duration, runs init(), and is valid. |
| Playback.HlsPlayer.Init | exowrap-hls-audio/src/main/java/jp/s64/android/exowrap/hls/audio/HlsPlayer.java:316-327 | Takes exactly the step CoordinatorSpec.Init describes and keeps the player valid. |
| Playback.HlsPlayer.SetState | exowrap-hls-audio/src/main/java/jp/s64/android/exowrap/hls/audio/HlsPlayer.java:454-457 | Writes the state, then reports it to the listener. |
| Playback.HlsPlayer.Destroy | exowrap-hls-audio/src/main/java/jp/s64/android/exowrap/hls/audio/HlsPlayer.java:392-400 | Takes CoordinatorSpec.Destroy's step and keeps the held notifier. |
| Playback.HlsPlayer.DestroyWithError | exowrap-hls-audio/src/main/java/jp/s64/android/exowrap/hls/audio/HlsPlayer.java:444-452 | Takes CoordinatorSpec.DestroyWithError's step. |
| Playback.HlsPlayer.AssertInitialized | exowrap-hls-audio/src/main/java/jp/s64/android/exowrap/hls/audio/HlsPlayer.java:409-414 | Takes CoordinatorSpec.AssertInitialized's step. |
| Playback.HlsPlayer.AssertPaused | exowrap-hls-audio/src/main/java/jp/s64/android/exowrap/hls/audio/HlsPlayer.java:416-421 | Takes CoordinatorSpec.AssertPaused's step. |
| Playback.HlsPlayer.AssertPausable | exowrap-hls-audio/src/main/java/jp/s64/android/exowrap/hls/audio/HlsPlayer.java:423-428 | Takes CoordinatorSpec.AssertPausable's step. |
| Playback.HlsPlayer.AssertBufferingPausable | exowrap-hls-audio/src/main/java/jp/s64/android/exowrap/hls/audio/HlsPlayer.java:430-435 | Takes CoordinatorSpec.AssertBufferingPausable's step. |
| Playback.HlsPlayer.AssertBuffering | exowrap-hls-audio/src/main/java/jp/s64/android/exowrap/hls/audio/HlsPlayer.java:437-442 | Takes CoordinatorSpec.AssertBuffering's step. |
| Playback.HlsPlayer.PlayFrom | exowrap-hls-audio/src/main/java/jp/s64/android/exowrap/hls/audio/HlsPlayer.java:336-353 | Takes CoordinatorSpec.PlayFrom's step. A newly held notifier is fresh, attached to this player, with exactly one poll queued at delay 0. Otherwise the queue is unchanged. |
| Playback.HlsPlayer.StartNotifier | exowrap-hls-audio/src/main/java/jp/s64/android/exowrap/hls/audio/HlsPlayer.java:349-352 | Creates a fresh notifier, attaches it to the player and queues its first poll. |
| Playback.HlsPlayer.Play | exowrap-hls-audio/src/main/java/jp/s64/android/exowrap/hls/audio/HlsPlayer.java:329-334 | Takes CoordinatorSpec.Play's step, with PlayFrom's notifier facts. |
| Playback.HlsPlayer.PauseFrom | exowrap-hls-audio/src/main/java/jp/s64/android/exowrap/hls/audio/HlsPlayer.java:363-377 | Takes CoordinatorSpec.PauseFrom's step. A notifier it drops has been detached, so its queued poll will do nothing. |
| Playback.HlsPlayer.StopNotifier | exowrap-hls-audio/src/main/java/jp/s64/android/exowrap/hls/audio/HlsPlayer.java:370-373 | Detaches the held notifier and drops it. |
| Playback.HlsPlayer.Pause | exowrap-hls-audio/src/main/java/jp/s64/android/exowrap/hls/audio/HlsPlayer.java:355-357 | Takes CoordinatorSpec.Pause's step, with PauseFrom's notifier facts. |
| Playback.HlsPlayer.SetSeekPosition | exowrap-hls-audio/src/main/java/jp/s64/android/exowrap/hls/audio/HlsPlayer.java:402-407 | Takes CoordinatorSpec.SetSeekPosition's step. |
| Playback.HlsPlayer.SetSpeed | exowrap-hls-audio/src/main/java/jp/s64/android/exowrap/hls/audio/HlsPlayer.java:476-486 | Takes CoordinatorSpec.SetSpeed's step. |
| Playback.HlsPlayer.GetSpeed | exowrap-hls-audio/src/main/java/jp/s64/android/exowrap/hls/audio/HlsPlayer.java:488-491 | Returns CoordinatorSpec.GetSpeed's outcome. It keeps the player valid and the held notifier, changes no state and calls nothing. |
| Playback.HlsPlayer.SetTotalDuration | exowrap-hls-audio/src/main/java/jp/s64/android/exowrap/hls/audio/HlsPlayer.java:459-465 | Takes CoordinatorSpec.SetTotalDuration's step. |
| Playback.HlsPlayer.GetTotalDuration | exowrap-hls-audio/src/main/java/jp/s64/android/exowrap/hls/audio/HlsPlayer.java:467-474 | Returns CoordinatorSpec.GetTotalDuration's outcome. It keeps the player valid and the held notifier, changes no state and calls nothing. |
| Playback.HlsPlayer.NotifySeekPositionManually | exowrap-hls-audio/src/main/java/jp/s64/android/exowrap/hls/audio/HlsPlayer.java:516-520 | Reports the engine's position and changes no state. |
| Playback.HlsPlayer.Tell | exowrap-hls-audio/src/main/java/jp/s64/android/exowrap/hls/audio/HlsPlayer.java:504-513 | Makes one listener call, keeps the player valid and the held notifier, and changes no state. |
| Playback.HlsPlayer.OnEnded | exowrap-hls-audio/src/main/java/jp/s64/android/exowrap/hls/audio/HlsPlayer.java:379-390 | Takes CoordinatorSpec.OnEnded's step. A dropped notifier has been detached. |
| Playback.HlsPlayer.EndPlayback | exowrap-hls-audio/src/main/java/jp/s64/android/exowrap/hls/audio/HlsPlayer.java:381-389 | Takes CoordinatorSpec.EndPlayback's step. The seek after pause() cannot throw. |
| Playback.HlsPlayer.OnPlayerStateChanged | exowrap-hls-audio/src/main/java/jp/s64/android/exowrap/hls/audio/HlsPlayer.java:137-177 | Takes CoordinatorSpec.OnPlayerStateChanged's step. The held notifier is either detached and dropped, or fresh with one poll queued, or unchanged with the queue unchanged. |
| Playback.HlsPlayer.OnPlayerError | exowrap-hls-audio/src/main/java/jp/s64/android/exowrap/hls/audio/HlsPlayer.java:131-134 | Takes the destroyWithError step for the engine's error. |
| Playback.HlsPlayer.OnTimelineChanged | exowrap-hls-audio/src/main/java/jp/s64/android/exowrap/hls/audio/HlsPlayer.java:180-221 | Takes CoordinatorSpec.OnTimelineChanged's step. |
| Playback.HlsPlayer.OnLoadError | exowrap-hls-audio/src/main/java/jp/s64/android/exowrap/hls/audio/HlsPlayer.java:275-286 | Takes CoordinatorSpec.OnLoadError's step. It keeps the player valid and the held notifier. |
| PlaybackScenarios.ReadyPlayer | exowrap-hls-audio/src/test/java/jp/s64/android/exowrap/hls/audio/HlsPlayerTest.kt:141-162 | A new player that gets READY is PAUSED without a notifier, has an empty queue, and has made exactly its six calls. |
| PlaybackScenarios.StartPlaying | exowrap-hls-audio/src/test/java/jp/s64/android/exowrap/hls/audio/HlsPlayerTest.kt:311-333 | play() on that player: PLAYING, one fresh notifier, one poll queued at delay 0. |
| PlaybackScenarios.PollThenPause | exowrap-hls-audio/src/main/java/jp/s64/android/exowrap/hls/audio/SeekNotifier.java:20-42 | One poll reports the position. After pause(), the re-posted poll reports nothing and empties the queue. The exact thirteen calls are stated. |
| PlaybackScenarios.DestroyWhilePlaying | exowrap-hls-audio/src/main/java/jp/s64/android/exowrap/hls/audio/SeekNotifier.java:32-40 | destroy() while PLAYING keeps the notifier attached. Its poll runs, re-posts itself with the interval and adds no call. |

## Left out

- The convenience constructors (HlsPlayer.java:53-111) only build the Android engine, the media source and the handler. The model starts from the constructor that receives them (113-126).
- The factory `IDependencies` is folded into the model. `createSeekNotifier` is `new SeekNotifier(handler, interval)` with the player's handler and interval. `createPlaybackParameters` is taken to build the parameters from its three arguments.
- The engine, the media source and the listener are not modelled. What the player asks of them is recorded in order in `calls`. What it reads from them is an input of the operation: the current position, the current playback parameters, and the timeline's window count, single-period flag, window duration and dynamic flag.
- The no-op media-source callbacks (HlsPlayer.java:228-312) do nothing and are not modelled.
- `Handler.postDelayed` is a FIFO queue. Delays are recorded, but there is no clock, thread or reordering by delay. `Handler.RunNext` is the looper running the oldest runnable.
- Floats (speed, pitch) are kept as opaque 32-bit patterns and only forwarded. No float arithmetic is modelled.
- Positions and durations are unbounded integers. 64-bit `long` overflow is not modelled; the code does no arithmetic on them.
- The exception messages are not modelled, only the exception classes. The error objects handed to `onError` and `onWarn` are abstract values.
- Playback.HlsPlayer.constructor: requires that the handler's queue holds only polls of notifiers on that same handler. The Android handler is shared with other code, which the model does not cover.
- CoordinatorRuns.ApplyKeeps: in a run, the two getters are inputs that keep only their exception. The value they return is stated by CoordinatorSpec.GetSpeed and CoordinatorSpec.GetTotalDuration.
- The example application (seek-bar arithmetic, the 0 speed remap) is not part of this model.
- Listener re-entrancy: the listener is only a log entry, so the model assumes no listener callback calls back into the player. The Java code allows such calls, and the example application makes one: it reads `getTotalDuration` inside `onSeekPositionChanged`.
  - Under re-entry, the getter throws while no duration is known (HlsPlayer.java:467-474). That exception would leave the notifier's runnable before it re-posts (SeekNotifier.java:36-39) and end the polling.
  - A listener that calls `pause()` from `onStateChanged(PLAYING)` would let `play()` go on to create and start a notifier on a PAUSED player (HlsPlayer.java:346-352).
  - So these results hold only for a listener that does not call back into the player: that a tick never throws (CoordinatorSpec.LiveTick, Playback.SeekNotifier.Run), the notifier invariant (CoordinatorRuns.RunKeepsConsistent, CoordinatorRuns.ReachableIsConsistent), and that the listener tracks the state (CoordinatorRuns.ListenerTracksState).

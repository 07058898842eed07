/** Values shared by the coordinator model: the playback state, what the
    coordinator tells its listener, what it asks of the engine, and the
    engine's constants it switches on. */
module PlayerTypes {

  datatype Option<T> = None | Some(value: T)

  /** The result of a call that returns a value or throws. */
  datatype Outcome<T> = Returned(value: T) | Threw(exception: Exception)

  /** The two runtime exceptions the coordinator throws. */
  datatype Exception = IllegalState | IllegalArgument

  /** HlsPlayer.State: exactly one holds at any time. */
  datatype State =
    | Initialized
    | BufferingInPlay
    | BufferingInPause
    | Playing
    | Paused
    | Destroyed

  /** A float is only forwarded, never computed with: it is kept as its bit pattern. */
  datatype Float32 = Float32(bits: bv32)

  /** The engine's playback parameters (speed, pitch, skip-silence flag). */
  datatype PlaybackParameters = PlaybackParameters(speed: Float32, pitch: Float32, skipSilence: bool)

  /** Why a timeline is refused. */
  datatype UnsupportedTimeline = MultiWindow | MultiPeriod | DynamicStream

  /** The throwables handed to the listener. */
  datatype Throwable =
    | PlaybackException(code: int)
    | LoadException(code: int)
    | UnsupportedOperation(reason: UnsupportedTimeline)

  /** HlsPlayer.Listener. */
  datatype ListenerEvent =
    | OnStateChanged(newState: State)
    | OnSeekPositionChanged(positionMillis: int)
    | OnError(error: Throwable)
    | OnWarn(warning: Throwable)
    | OnEnded

  /** Calls on the wrapped engine and on the media source. */
  datatype EngineCall =
    | SetPlayWhenReady(playWhenReady: bool)
    | SeekTo(windowIndex: int, positionMillis: int)
    | AddListener
    | RemoveListener
    | Prepare
    | Release
    | SetPlaybackParameters(parameters: PlaybackParameters)
    | SourceAddEventListener
    | SourceRemoveEventListener

  /** Calls on the owned seek notifier: a fresh one created and started, or the current one stopped. */
  datatype NotifierCall = CreateAndStart | Stop

  /** Every outward call of the coordinator, in the order it makes them. */
  datatype Effect =
    | Listener(event: ListenerEvent)
    | Engine(call: EngineCall)
    | Notifier(notifierCall: NotifierCall)

  // Player.STATE_* of the engine.
  const STATE_IDLE: int := 1
  const STATE_BUFFERING: int := 2
  const STATE_READY: int := 3
  const STATE_ENDED: int := 4

  // Player.TIMELINE_CHANGE_REASON_* of the engine.
  const TIMELINE_CHANGE_REASON_PREPARED: int := 0
  const TIMELINE_CHANGE_REASON_RESET: int := 1
  const TIMELINE_CHANGE_REASON_DYNAMIC: int := 2

  /** C.TIME_UNSET, that is Long.MIN_VALUE + 1. */
  const TIME_UNSET: int := -9223372036854775807

  /** What the coordinator reads from a timeline: its window count, whether it
      is a single-period timeline, and window 0's duration and dynamic flag. */
  datatype Timeline = Timeline(windowCount: int, singlePeriod: bool, windowDurationMs: int, windowIsDynamic: bool)
}

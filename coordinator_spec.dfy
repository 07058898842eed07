/** The playback-state coordinator (HlsPlayer) as functions on its state.

    Each source operation becomes a function from the coordinator's state to a
    Step: the new state, the calls it made in order (listener, engine, media
    source, seek notifier) and the exception it threw, if any. A thrown
    exception ends the operation: `Then` runs the next part only when the
    first part returned normally, as Java's sequential code does. */
module CoordinatorSpec {
  import opened PlayerTypes

  /** The fields of HlsPlayer that its operations update: `state`, whether
      `seekNotifier` is non-null, and the write-once `totalDuration`. */
  datatype Coord = Coord(state: State, hasNotifier: bool, totalDuration: Option<int>)

  /** The outcome of one operation. */
  datatype Step = Step(coord: Coord, effects: seq<Effect>, thrown: Option<Exception>)

  /** The fields as the field initialisers leave them, before init() runs. */
  const Initial: Coord := Coord(Initialized, false, None)

  function Ok(c: Coord, effects: seq<Effect>): Step {
    Step(c, effects, None)
  }

  /** Runs `next` after `first` unless `first` threw; the caller computes
      `next` from `first.coord`. */
  function Then(first: Step, next: Step): Step {
    if first.thrown.Some? then first
    else Step(next.coord, first.effects + next.effects, next.thrown)
  }

  /** Until it is destroyed, the player holds a seek notifier exactly when it
      means to play: in PLAYING and in BUFFERING_IN_PLAY. */
  predicate Consistent(c: Coord) {
    c.state != Destroyed ==> (c.hasNotifier <==> c.state == Playing || c.state == BufferingInPlay)
  }

  /** The listener calls among the effects, in order. */
  function ListenerEvents(effects: seq<Effect>): (r: seq<ListenerEvent>)
    ensures |r| <= |effects|
  {
    if effects == [] then []
    else (if effects[0].Listener? then [effects[0].event] else []) + ListenerEvents(effects[1..])
  }

  lemma ListenerEventsCons(e: Effect, rest: seq<Effect>)
    ensures ListenerEvents([e] + rest) == (if e.Listener? then [e.event] else []) + ListenerEvents(rest)
  {
    assert ([e] + rest)[0] == e;
    assert ([e] + rest)[1..] == rest;
  }

  lemma {:induction false} ListenerEventsAppend(a: seq<Effect>, b: seq<Effect>)
    ensures ListenerEvents(a + b) == ListenerEvents(a) + ListenerEvents(b)
  {
    if a == [] {
      assert a + b == b;
    } else {
      assert (a + b)[0] == a[0];
      assert (a + b)[1..] == a[1..] + b;
      ListenerEventsAppend(a[1..], b);
    }
  }

  // ---------------------------------------------------------------------
  // setState, destroy and the assert* guards

  /** setState: write the field, then tell the listener. */
  function SetState(c: Coord, s: State): (r: Step)
    ensures r.thrown == None && r.coord == c.(state := s)
    ensures ListenerEvents(r.effects) == [OnStateChanged(s)] && |r.effects| == 1
  {
    Ok(c.(state := s), [Listener(OnStateChanged(s))])
  }

  /** destroy(): a no-op once destroyed; otherwise unregisters from the media
      source and the engine, releases the engine and reports DESTROYED. The
      seek notifier is left as it is. */
  function Destroy(c: Coord): (r: Step)
    ensures r.thrown == None
    ensures r.coord == c.(state := Destroyed)
    ensures c.state == Destroyed ==> r.effects == []
    ensures c.state != Destroyed ==>
      && r.effects == [Engine(SourceRemoveEventListener), Engine(RemoveListener), Engine(Release),
                       Listener(OnStateChanged(Destroyed))]
  {
    if c.state == Destroyed then Ok(c, [])
    else Then(Ok(c, [Engine(SourceRemoveEventListener), Engine(RemoveListener), Engine(Release)]),
              SetState(c, Destroyed))
  }

  /** A failing assert* guard: destroy(), then IllegalStateException. */
  function Reject(c: Coord): (r: Step)
    ensures r.coord == c.(state := Destroyed) && r.thrown == Some(IllegalState)
    ensures r.effects == Destroy(c).effects
  {
    var d := Destroy(c);
    Step(d.coord, d.effects, Some(IllegalState))
  }

  /** A passing guard. */
  function Pass(c: Coord): Step {
    Ok(c, [])
  }

  /** assertInitialized: fails only once destroyed. */
  function AssertInitialized(c: Coord): (r: Step)
    ensures r.thrown.None? <==> c.state != Destroyed
    ensures r.thrown.None? ==> r == Ok(c, [])
    ensures r.thrown.Some? ==> r == Reject(c)
  {
    if c.state == Destroyed then Reject(c) else Pass(c)
  }

  /** assertPaused: passes only in PAUSED and BUFFERING_IN_PAUSE. */
  function AssertPaused(c: Coord): (r: Step)
    ensures r.thrown.None? <==> c.state == Paused || c.state == BufferingInPause
    ensures r.thrown.None? ==> r == Ok(c, [])
    ensures r.thrown.Some? ==> r == Reject(c)
  {
    if c.state != Paused && c.state != BufferingInPause then Reject(c) else Pass(c)
  }

  /** assertPausable: fails once destroyed or already PAUSED. */
  function AssertPausable(c: Coord): (r: Step)
    ensures r.thrown.None? <==> c.state != Destroyed && c.state != Paused
    ensures r.thrown.None? ==> r == Ok(c, [])
    ensures r.thrown.Some? ==> r == Reject(c)
  {
    if c.state == Destroyed || c.state == Paused then Reject(c) else Pass(c)
  }

  /** assertBufferingPausable: fails once destroyed or already BUFFERING_IN_PAUSE. */
  function AssertBufferingPausable(c: Coord): (r: Step)
    ensures r.thrown.None? <==> c.state != Destroyed && c.state != BufferingInPause
    ensures r.thrown.None? ==> r == Ok(c, [])
    ensures r.thrown.Some? ==> r == Reject(c)
  {
    if c.state == Destroyed || c.state == BufferingInPause then Reject(c) else Pass(c)
  }

  /** assertBuffering: passes only in the two buffering states. */
  function AssertBuffering(c: Coord): (r: Step)
    ensures r.thrown.None? <==> c.state == BufferingInPlay || c.state == BufferingInPause
    ensures r.thrown.None? ==> r == Ok(c, [])
    ensures r.thrown.Some? ==> r == Reject(c)
  {
    if c.state != BufferingInPlay && c.state != BufferingInPause then Reject(c) else Pass(c)
  }

  predicate IsBuffering(s: State): (r: bool)
    ensures r <==> s == BufferingInPlay || s == BufferingInPause
  {
    s == BufferingInPause || s == BufferingInPlay
  }

  // ---------------------------------------------------------------------
  // init, play, pause

  /** init(): single-shot; registers with the engine and the media source. */
  function Init(c: Coord): (r: Step)
    ensures r.thrown.None? <==> c.state == Initialized
    ensures r.thrown.None? ==>
      && r.coord == c
      && ListenerEvents(r.effects) == []
      && r.effects != [] && r.effects[0] == Engine(SetPlayWhenReady(false))
      && Engine(AddListener) in r.effects && Engine(SourceAddEventListener) in r.effects
      && Engine(RemoveListener) !in r.effects && Engine(Release) !in r.effects
    ensures r.thrown.Some? ==> r == Reject(c)
  {
    if c.state != Initialized then Reject(c)
    else Ok(c, [Engine(SetPlayWhenReady(false)), Engine(SourceAddEventListener), Engine(AddListener), Engine(Prepare)])
  }

  /** play(currentlyInBuffering, continueToReady), the private form: checks
      assertBuffering when both flags hold and assertPaused otherwise, then
      enters PLAYING and starts a fresh notifier unless one is held. */
  function PlayFrom(c: Coord, currentlyInBuffering: bool, continueToReady: bool): (r: Step)
    ensures r.thrown.None? <==>
      if currentlyInBuffering && continueToReady then IsBuffering(c.state)
      else c.state == Paused || c.state == BufferingInPause
    ensures r.thrown.None? ==>
      && r.coord == c.(state := Playing, hasNotifier := true)
      && r.effects == [Listener(OnStateChanged(Playing)), Engine(SetPlayWhenReady(true))]
                      + (if c.hasNotifier then [] else [Notifier(CreateAndStart)])
    ensures r.thrown.Some? ==> r == Reject(c)
  {
    var g := if currentlyInBuffering && continueToReady then AssertBuffering(c) else AssertPaused(c);
    var s := Then(g, SetState(g.coord, Playing));
    var w := Then(s, Ok(s.coord, [Engine(SetPlayWhenReady(true))]));
    Then(w, if w.coord.hasNotifier then Ok(w.coord, [])
            else Ok(w.coord.(hasNotifier := true), [Notifier(CreateAndStart)]))
  }

  /** The public play(). */
  function Play(c: Coord): (r: Step)
    ensures r.thrown.None? <==> c.state == Paused || c.state == BufferingInPause
    ensures r.thrown.None? ==>
      && r.coord == c.(state := Playing, hasNotifier := true)
      && r.effects == [Listener(OnStateChanged(Playing)), Engine(SetPlayWhenReady(true))]
                      + (if c.hasNotifier then [] else [Notifier(CreateAndStart)])
    ensures r.thrown.Some? ==> r == Reject(c)
  {
    PlayFrom(c, !IsBuffering(c.state), false)
  }

  /** pause(inBuffering), the private form: checks assertBufferingPausable or
      assertPausable, stops and drops the notifier, clears playWhenReady and
      enters BUFFERING_IN_PAUSE or PAUSED. */
  function PauseFrom(c: Coord, inBuffering: bool): (r: Step)
    ensures r.thrown.None? <==>
      c.state != Destroyed && c.state != (if inBuffering then BufferingInPause else Paused)
    ensures r.thrown.None? ==>
      && r.coord == c.(state := if inBuffering then BufferingInPause else Paused, hasNotifier := false)
      && r.effects == (if c.hasNotifier then [Notifier(Stop)] else [])
                      + [Engine(SetPlayWhenReady(false)), Listener(OnStateChanged(r.coord.state))]
    ensures r.thrown.Some? ==> r == Reject(c)
  {
    var g := if !inBuffering then AssertPausable(c) else AssertBufferingPausable(c);
    var n := Then(g, if g.coord.hasNotifier then Ok(g.coord.(hasNotifier := false), [Notifier(Stop)])
                     else Ok(g.coord, []));
    var w := Then(n, Ok(n.coord, [Engine(SetPlayWhenReady(false))]));
    Then(w, SetState(w.coord, if inBuffering then BufferingInPause else Paused))
  }

  /** The public pause(). */
  function Pause(c: Coord): (r: Step)
    ensures r.thrown.None? <==> c.state == Initialized || c.state == Playing || c.state == BufferingInPlay
    ensures r.thrown.None? ==>
      && r.coord == c.(state := if c.state == BufferingInPlay then BufferingInPause else Paused,
                       hasNotifier := false)
      && r.effects == (if c.hasNotifier then [Notifier(Stop)] else [])
                      + [Engine(SetPlayWhenReady(false)), Listener(OnStateChanged(r.coord.state))]
    ensures r.thrown.Some? ==> r == Reject(c)
  {
    PauseFrom(c, IsBuffering(c.state))
  }

  // ---------------------------------------------------------------------
  // seeking, speed, duration, position

  /** setSeekPosition: a seek in window 0. */
  function SetSeekPosition(c: Coord, positionMillis: int): (r: Step)
    ensures r.thrown.None? <==> c.state != Destroyed
    ensures r.thrown.None? ==> r.coord == c && r.effects == [Engine(SeekTo(0, positionMillis))]
    ensures r.thrown.Some? ==> r == Step(c, [], Some(IllegalState))
  {
    Then(AssertInitialized(c), Ok(c, [Engine(SeekTo(0, positionMillis))]))
  }

  /** setSpeed: new parameters with the given speed and the engine's current
      pitch and skip-silence flag; the speed is forwarded unchanged. */
  function SetSpeed(c: Coord, speed: Float32, current: PlaybackParameters): (r: Step)
    ensures r.thrown.None? <==> c.state != Destroyed
    ensures r.thrown.None? ==>
      && r.coord == c
      && |r.effects| == 1 && r.effects[0].Engine? && r.effects[0].call.SetPlaybackParameters?
      && r.effects[0].call.parameters.speed == speed
      && r.effects[0].call.parameters.pitch == current.pitch
      && r.effects[0].call.parameters.skipSilence == current.skipSilence
    ensures r.thrown.Some? ==> r == Step(c, [], Some(IllegalState))
  {
    Then(AssertInitialized(c),
         Ok(c, [Engine(SetPlaybackParameters(PlaybackParameters(speed, current.pitch, current.skipSilence)))]))
  }

  /** getSpeed: the engine's current speed. The guard never changes anything,
      because destroy() is a no-op on a destroyed player. */
  function GetSpeed(c: Coord, current: PlaybackParameters): (r: Outcome<Float32>)
    ensures r.Returned? <==> c.state != Destroyed
    ensures r.Returned? ==> r.value == current.speed
    ensures r.Threw? ==> r.exception == IllegalState
  {
    if AssertInitialized(c).thrown.Some? then Threw(IllegalState) else Returned(current.speed)
  }

  /** setTotalDuration: write-once. */
  function SetTotalDuration(c: Coord, durationMillis: int): (r: Step)
    ensures r.effects == []
    ensures r.thrown.None? <==> c.state != Destroyed && c.totalDuration.None?
    ensures r.thrown.None? ==> r.coord == c.(totalDuration := Some(durationMillis))
    ensures r.thrown.Some? ==> r.coord == c && r.thrown == Some(IllegalState)
  {
    var g := AssertInitialized(c);
    if g.thrown.Some? then g
    else if c.totalDuration.Some? then Step(c, [], Some(IllegalState))
    else Ok(c.(totalDuration := Some(durationMillis)), [])
  }

  /** getTotalDuration: the duration once it is known. */
  function GetTotalDuration(c: Coord): (r: Outcome<int>)
    ensures r.Returned? <==> c.state != Destroyed && c.totalDuration.Some?
    ensures r.Returned? ==> c.totalDuration == Some(r.value)
    ensures r.Threw? ==> r.exception == IllegalState
  {
    if AssertInitialized(c).thrown.Some? then Threw(IllegalState)
    else match c.totalDuration
      case None => Threw(IllegalState)
      case Some(d) => Returned(d)
  }

  /** notifySeekPositionManually: reports the engine's current position. */
  function NotifySeekPositionManually(c: Coord, positionMillis: int): (r: Step)
    ensures r.thrown == None && r.coord == c
    ensures ListenerEvents(r.effects) == [OnSeekPositionChanged(positionMillis)] && |r.effects| == 1
  {
    Ok(c, [Listener(OnSeekPositionChanged(positionMillis))])
  }

  // ---------------------------------------------------------------------
  // engine and media-source callbacks

  /** The body of onEnded for a live player that is not PAUSED: onEnded,
      pause(), a seek to 0, and a report of the engine's position when no
      notifier is left. */
  function EndPlayback(c: Coord, positionMillis: int): (r: Step)
    requires c.state != Destroyed && c.state != Paused
    ensures c.state != BufferingInPause ==>
      && r.thrown == None
      && r.coord == c.(state := if c.state == BufferingInPlay then BufferingInPause else Paused,
                       hasNotifier := false)
      && r.effects == [Listener(ListenerEvent.OnEnded)]
                      + (if c.hasNotifier then [Notifier(Stop)] else [])
                      + [Engine(SetPlayWhenReady(false)), Listener(OnStateChanged(r.coord.state)),
                         Engine(SeekTo(0, 0)), Listener(OnSeekPositionChanged(positionMillis))]
    ensures c.state == BufferingInPause ==>
      && r.thrown == Some(IllegalState)
      && r.coord.state == Destroyed
      && r.effects == [Listener(ListenerEvent.OnEnded)] + Destroy(c).effects
  {
    var e := Ok(c, [Listener(ListenerEvent.OnEnded)]);
    var p := Then(e, Pause(e.coord));
    var s := Then(p, SetSeekPosition(p.coord, 0));
    Then(s, if s.coord.hasNotifier then Ok(s.coord, []) else NotifySeekPositionManually(s.coord, positionMillis))
  }

  /** onEnded: nothing once PAUSED (ENDED can arrive more than once);
      otherwise the body above. */
  function OnEnded(c: Coord, positionMillis: int): (r: Step)
    ensures c.state == Destroyed ==> r == Step(c, [], Some(IllegalState))
    ensures c.state == Paused ==> r == Ok(c, [])
    ensures c.state != Destroyed && c.state != Paused ==> r == EndPlayback(c, positionMillis)
  {
    var g := AssertInitialized(c);
    if g.thrown.Some? then g
    else if c.state == Paused then Ok(c, [])
    else EndPlayback(c, positionMillis)
  }

  /** destroyWithError: onError, then destroy(); nothing once destroyed. */
  function DestroyWithError(c: Coord, error: Throwable): (r: Step)
    ensures r.thrown == None
    ensures r.coord == c.(state := Destroyed)
    ensures c.state == Destroyed ==> r.effects == []
    ensures c.state != Destroyed ==> r.effects == [Listener(OnError(error))] + Destroy(c).effects
  {
    if c.state == Destroyed then Ok(c, [])
    else Then(Ok(c, [Listener(OnError(error))]), Destroy(c))
  }

  /** onPlayerStateChanged. BUFFERING and READY first check the player is not
      destroyed; READY does not look at playWhenReady; IDLE destroys; an
      unknown engine state destroys and throws IllegalArgumentException. */
  function OnPlayerStateChanged(c: Coord, playWhenReady: bool, playbackState: int, positionMillis: int): (r: Step)
    ensures (playbackState == STATE_BUFFERING || playbackState == STATE_READY) && c.state == Destroyed ==>
      r == Step(c, [], Some(IllegalState))
    ensures playbackState == STATE_BUFFERING ==>
      && (c.state == Initialized || c.state == Paused ==>
            && r.thrown == None
            && r.coord == c.(state := BufferingInPause, hasNotifier := false)
            && r.effects == (if c.hasNotifier then [Notifier(Stop)] else [])
                            + [Engine(SetPlayWhenReady(false)), Listener(OnStateChanged(BufferingInPause))])
      && (c.state == Playing || c.state == BufferingInPlay ==>
            r == Ok(c.(state := BufferingInPlay), [Listener(OnStateChanged(BufferingInPlay))]))
      && (c.state == BufferingInPause ==> r == Step(c, [], Some(IllegalState)))
    ensures playbackState == STATE_READY ==>
      && (c.state == Initialized || c.state == BufferingInPause ==>
            && r.thrown == None
            && r.coord == c.(state := Paused, hasNotifier := false)
            && r.effects == (if c.hasNotifier then [Notifier(Stop)] else [])
                            + [Engine(SetPlayWhenReady(false)), Listener(OnStateChanged(Paused))])
      && (c.state == BufferingInPlay ==>
            && r.thrown == None
            && r.coord == c.(state := Playing, hasNotifier := true)
            && r.effects == [Listener(OnStateChanged(Playing)), Engine(SetPlayWhenReady(true))]
                            + (if c.hasNotifier then [] else [Notifier(CreateAndStart)]))
      && (c.state == Playing || c.state == Paused ==> r == Ok(c, []))
    ensures playbackState == STATE_ENDED ==> r == OnEnded(c, positionMillis)
    ensures playbackState == STATE_IDLE ==> r == Destroy(c)
    ensures playbackState !in {STATE_BUFFERING, STATE_READY, STATE_ENDED, STATE_IDLE} ==>
      && r.coord.state == Destroyed
      && r.effects == Destroy(c).effects
      && r.thrown == Some(IllegalArgument)
  {
    if playbackState == STATE_BUFFERING then
      var g := AssertInitialized(c);
      if g.thrown.Some? then g
      else if c.state == Initialized || c.state == Paused then PauseFrom(c, true)
      else if c.state == Playing || c.state == BufferingInPlay then SetState(c, BufferingInPlay)
      else Step(c, [], Some(IllegalState))
    else if playbackState == STATE_READY then
      var g := AssertInitialized(c);
      if g.thrown.Some? then g
      else if c.state == Initialized || c.state == BufferingInPause then PauseFrom(c, false)
      else if c.state == BufferingInPlay then PlayFrom(c, true, true)
      else Ok(c, [])
    else if playbackState == STATE_ENDED then OnEnded(c, positionMillis)
    else if playbackState == STATE_IDLE then Destroy(c)
    else
      var d := Destroy(c);
      Step(d.coord, d.effects, Some(IllegalArgument))
  }

  /** onPlayerError: a fatal engine error. */
  function OnPlayerError(c: Coord, error: Throwable): (r: Step)
    ensures r.thrown == None && r.coord == c.(state := Destroyed)
    ensures c.state == Destroyed ==> r.effects == []
    ensures c.state != Destroyed ==>
      && r.effects == [Listener(OnError(error)), Engine(SourceRemoveEventListener), Engine(RemoveListener),
                       Engine(Release), Listener(OnStateChanged(Destroyed))]
      && ListenerEvents(r.effects) == [OnError(error), OnStateChanged(Destroyed)]
  {
    var r := DestroyWithError(c, error);
    if c.state == Destroyed then r
    else
      var all := [Listener(OnError(error)), Engine(SourceRemoveEventListener), Engine(RemoveListener),
                  Engine(Release), Listener(OnStateChanged(Destroyed))];
      var tail := [Engine(SourceRemoveEventListener), Engine(RemoveListener), Engine(Release),
                   Listener(OnStateChanged(Destroyed))];
      assert r.effects == all == [Listener(OnError(error))] + tail;
      assert ListenerEvents(tail) == [OnStateChanged(Destroyed)];
      ListenerEventsCons(Listener(OnError(error)), tail);
      r
  }

  /** The timeline-acceptance decision of onTimelineChanged, for a reason that
      does not throw: a single window, a single period, a known duration and a
      static window. */
  function TimelineRefusal(t: Timeline): (r: Option<UnsupportedTimeline>)
    ensures r == Some(MultiWindow) <==> t.windowCount != 1
    ensures r == Some(MultiPeriod) <==> t.windowCount == 1 && !t.singlePeriod
    ensures r == Some(DynamicStream) <==>
      t.windowCount == 1 && t.singlePeriod && (t.windowDurationMs == TIME_UNSET || t.windowIsDynamic)
    ensures r.None? <==>
      t.windowCount == 1 && t.singlePeriod && t.windowDurationMs != TIME_UNSET && !t.windowIsDynamic
  {
    if t.windowCount != 1 then Some(MultiWindow)
    else if !t.singlePeriod then Some(MultiPeriod)
    else if t.windowDurationMs == TIME_UNSET || t.windowIsDynamic then Some(DynamicStream)
    else None
  }

  /** onTimelineChanged: a RESET or DYNAMIC change throws (without destroying);
      an unsupported timeline destroys with an error; otherwise the window's
      duration becomes the total duration. */
  function OnTimelineChanged(c: Coord, reason: int, t: Timeline): (r: Step)
    ensures reason == TIMELINE_CHANGE_REASON_RESET || reason == TIMELINE_CHANGE_REASON_DYNAMIC ==>
      r == Step(c, [], Some(IllegalState))
    ensures reason != TIMELINE_CHANGE_REASON_RESET && reason != TIMELINE_CHANGE_REASON_DYNAMIC ==>
      && (TimelineRefusal(t).Some? ==>
            r == DestroyWithError(c, UnsupportedOperation(TimelineRefusal(t).value)))
      && (TimelineRefusal(t).None? ==>
            && t.windowCount == 1 && t.singlePeriod && t.windowDurationMs != TIME_UNSET && !t.windowIsDynamic
            && r == SetTotalDuration(c, t.windowDurationMs))
  {
    if reason == TIMELINE_CHANGE_REASON_RESET || reason == TIMELINE_CHANGE_REASON_DYNAMIC then
      Step(c, [], Some(IllegalState))
    else match TimelineRefusal(t)
      case Some(why) => DestroyWithError(c, UnsupportedOperation(why))
      case None => SetTotalDuration(c, t.windowDurationMs)
  }

  /** onLoadError: a warning, unless destroyed, cancelled or without an error.
      It never changes the state. */
  function OnLoadError(c: Coord, error: Option<Throwable>, wasCanceled: bool): (r: Step)
    ensures r.coord == c && r.thrown == None
    ensures r.effects != [] <==> c.state != Destroyed && !wasCanceled && error.Some?
    ensures r.effects != [] ==> r.effects == [Listener(OnWarn(error.value))]
  {
    if c.state != Destroyed && !wasCanceled && error.Some? then Ok(c, [Listener(OnWarn(error.value))])
    else Ok(c, [])
  }

  /** A tick of a notifier still attached to this player: it reports the
      engine's position only while PLAYING. */
  function LiveTick(c: Coord, positionMillis: int): (r: Step)
    ensures r.coord == c && r.thrown == None
    ensures r.effects != [] <==> c.state == Playing
    ensures r.effects != [] ==> r.effects == [Listener(OnSeekPositionChanged(positionMillis))]
  {
    if c.state == Playing then NotifySeekPositionManually(c, positionMillis) else Ok(c, [])
  }
}

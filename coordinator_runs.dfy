/** Sequences of inputs to the coordinator: every public command, every engine
    and media-source callback, and the ticks of a seek notifier still attached
    to the player. An input that throws hands the exception to its caller;
    the player object remains and receives the next input. */
module CoordinatorRuns {
  import opened PlayerTypes
  import opened CoordinatorSpec

  datatype Input =
    | UserInit
    | UserPlay
    | UserPause
    | UserDestroy
    | UserSetSeekPosition(positionMillis: int)
    | UserSetSpeed(speed: Float32, current: PlaybackParameters)
    | UserGetSpeed(current: PlaybackParameters)
    | UserGetTotalDuration
    | EngineStateChanged(playWhenReady: bool, playbackState: int, positionMillis: int)
    | EngineError(error: Throwable)
    | EngineTimelineChanged(reason: int, timeline: Timeline)
    | SourceLoadError(loadError: Option<Throwable>, wasCanceled: bool)
    | NotifierTick(positionMillis: int)

  /** The input is a command of the application. */
  predicate IsCommand(i: Input) {
    i.UserInit? || i.UserPlay? || i.UserPause? || i.UserDestroy? || i.UserSetSeekPosition?
    || i.UserSetSpeed? || i.UserGetSpeed? || i.UserGetTotalDuration?
  }

  /** One input. The two getters change nothing and call nothing; only their
      exception is kept here. */
  function Apply(c: Coord, i: Input): Step
  {
    match i
    case UserInit => Init(c)
    case UserPlay => Play(c)
    case UserPause => Pause(c)
    case UserDestroy => Destroy(c)
    case UserSetSeekPosition(p) => SetSeekPosition(c, p)
    case UserSetSpeed(speed, current) => SetSpeed(c, speed, current)
    case UserGetSpeed(current) =>
      Step(c, [], if GetSpeed(c, current).Threw? then Some(GetSpeed(c, current).exception) else None)
    case UserGetTotalDuration =>
      Step(c, [], if GetTotalDuration(c).Threw? then Some(GetTotalDuration(c).exception) else None)
    case EngineStateChanged(playWhenReady, playbackState, p) => OnPlayerStateChanged(c, playWhenReady, playbackState, p)
    case EngineError(error) => OnPlayerError(c, error)
    case EngineTimelineChanged(reason, t) => OnTimelineChanged(c, reason, t)
    case SourceLoadError(error, wasCanceled) => OnLoadError(c, error, wasCanceled)
    case NotifierTick(p) => LiveTick(c, p)
  }

  /** What every input keeps: the notifier invariant; a destroyed player
      unchanged and silent; a known total duration. */
  predicate Keeps(c: Coord, r: Step) {
    && (Consistent(c) ==> Consistent(r.coord))
    && (c.state == Destroyed ==> r.coord == c && r.effects == [])
    && (c.totalDuration.Some? ==> r.coord.totalDuration == c.totalDuration)
  }

  lemma CommandKeeps(c: Coord, i: Input)
    requires IsCommand(i)
    ensures Keeps(c, Apply(c, i))
  {
  }

  lemma CallbackKeeps(c: Coord, i: Input)
    requires !IsCommand(i)
    ensures Keeps(c, Apply(c, i))
  {
  }

  /** Every entry point keeps the notifier invariant, is silent and changes
      nothing once destroyed, and never changes a known total duration. */
  lemma ApplyKeeps(c: Coord, i: Input)
    ensures Consistent(c) ==> Consistent(Apply(c, i).coord)
    ensures c.state == Destroyed ==> Apply(c, i).coord == c && Apply(c, i).effects == []
    ensures c.totalDuration.Some? ==> Apply(c, i).coord.totalDuration == c.totalDuration
  {
    if IsCommand(i) {
      CommandKeeps(c, i);
    } else {
      CallbackKeeps(c, i);
    }
  }

  /** The final state and every effect of a sequence of inputs, in order. */
  function Run(c: Coord, inputs: seq<Input>): (Coord, seq<Effect>)
    decreases |inputs|
  {
    if inputs == [] then (c, [])
    else
      var s := Apply(c, inputs[0]);
      var rest := Run(s.coord, inputs[1..]);
      (rest.0, s.effects + rest.1)
  }

  /** DESTROYED is final and silent: whatever arrives afterwards, including the
      ticks of a notifier that destroy() left attached, changes nothing and
      calls nothing. */
  lemma {:induction false} DestroyedIsFinal(c: Coord, inputs: seq<Input>)
    requires c.state == Destroyed
    ensures Run(c, inputs) == (c, [])
    decreases |inputs|
  {
    if inputs != [] {
      var s := Apply(c, inputs[0]);
      ApplyKeeps(c, inputs[0]);
      DestroyedIsFinal(c, inputs[1..]);
      assert s.effects + Run(c, inputs[1..]).1 == [];
    }
  }

  /** The notifier is held exactly in PLAYING and BUFFERING_IN_PLAY (until
      destroyed) after any sequence of inputs. */
  lemma {:induction false} RunKeepsConsistent(c: Coord, inputs: seq<Input>)
    requires Consistent(c)
    ensures Consistent(Run(c, inputs).0)
    decreases |inputs|
  {
    if inputs != [] {
      ApplyKeeps(c, inputs[0]);
      RunKeepsConsistent(Apply(c, inputs[0]).coord, inputs[1..]);
    }
  }

  /** Every state the coordinator can reach from construction is consistent. */
  lemma ReachableIsConsistent(inputs: seq<Input>)
    ensures Consistent(Run(Init(Initial).coord, inputs).0)
  {
    RunKeepsConsistent(Init(Initial).coord, inputs);
  }

  /** The total duration, once known, never changes. */
  lemma {:induction false} DurationIsWriteOnce(c: Coord, inputs: seq<Input>)
    requires c.totalDuration.Some?
    ensures Run(c, inputs).0.totalDuration == c.totalDuration
    decreases |inputs|
  {
    if inputs != [] {
      ApplyKeeps(c, inputs[0]);
      DurationIsWriteOnce(Apply(c, inputs[0]).coord, inputs[1..]);
    }
  }

  // ---------------------------------------------------------------------
  // The listener's view of the state

  /** The state the listener was last told of, or `before` if none. */
  function LastReported(effects: seq<Effect>, before: State): State
    decreases |effects|
  {
    if effects == [] then before
    else match effects[|effects| - 1]
      case Listener(OnStateChanged(s)) => s
      case _ => LastReported(effects[..|effects| - 1], before)
  }

  /** No state report among the effects. */
  predicate Silent(effects: seq<Effect>) {
    forall k :: 0 <= k < |effects| ==> !(effects[k].Listener? && effects[k].event.OnStateChanged?)
  }

  lemma {:induction false} LastReportedAppend(a: seq<Effect>, b: seq<Effect>, before: State)
    ensures LastReported(a + b, before) == LastReported(b, LastReported(a, before))
    decreases |b|
  {
    if b == [] {
      assert a + b == a;
    } else {
      assert (a + b)[|a + b| - 1] == b[|b| - 1];
      assert (a + b)[..|a + b| - 1] == a + b[..|b| - 1];
      LastReportedAppend(a, b[..|b| - 1], before);
    }
  }

  lemma {:induction false} LastReportedSilent(effects: seq<Effect>, before: State)
    requires Silent(effects)
    ensures LastReported(effects, before) == before
    decreases |effects|
  {
    if effects != [] {
      LastReportedSilent(effects[..|effects| - 1], before);
    }
  }

  /** A run of effects whose last state report is `s`. */
  lemma LastReportedIs(a: seq<Effect>, s: State, b: seq<Effect>, before: State)
    requires Silent(b)
    ensures LastReported(a + [Listener(OnStateChanged(s))] + b, before) == s
  {
    LastReportedAppend(a + [Listener(OnStateChanged(s))], b, before);
    LastReportedSilent(b, LastReported(a + [Listener(OnStateChanged(s))], before));
  }

  /** destroy() reports DESTROYED last, unless it had nothing to do. */
  lemma DestroyReports(c: Coord)
    ensures LastReported(Destroy(c).effects, c.state) == Destroy(c).coord.state
    ensures LastReported(Reject(c).effects, c.state) == Reject(c).coord.state
  {
    if c.state != Destroyed {
      var pre := [Engine(SourceRemoveEventListener), Engine(RemoveListener), Engine(Release)];
      assert Destroy(c).effects == pre + [Listener(OnStateChanged(Destroyed))] + [];
      LastReportedIs(pre, Destroyed, [], c.state);
    }
  }

  lemma PlayFromReports(c: Coord, currentlyInBuffering: bool, continueToReady: bool)
    ensures var r := PlayFrom(c, currentlyInBuffering, continueToReady);
      LastReported(r.effects, c.state) == r.coord.state
  {
    var r := PlayFrom(c, currentlyInBuffering, continueToReady);
    if r.thrown.None? {
      var tail := [Engine(SetPlayWhenReady(true))] + (if c.hasNotifier then [] else [Notifier(CreateAndStart)]);
      assert r.effects == [] + [Listener(OnStateChanged(Playing))] + tail;
      LastReportedIs([], Playing, tail, c.state);
    } else {
      DestroyReports(c);
    }
  }

  lemma PauseFromReports(c: Coord, inBuffering: bool)
    ensures var r := PauseFrom(c, inBuffering);
      LastReported(r.effects, c.state) == r.coord.state
  {
    var r := PauseFrom(c, inBuffering);
    if r.thrown.None? {
      var head := (if c.hasNotifier then [Notifier(Stop)] else []) + [Engine(SetPlayWhenReady(false))];
      assert r.effects == head + [Listener(OnStateChanged(r.coord.state))] + [];
      LastReportedIs(head, r.coord.state, [], c.state);
    } else {
      DestroyReports(c);
    }
  }

  lemma OnEndedReports(c: Coord, positionMillis: int)
    ensures var r := CoordinatorSpec.OnEnded(c, positionMillis);
      LastReported(r.effects, c.state) == r.coord.state
  {
    var r := CoordinatorSpec.OnEnded(c, positionMillis);
    if c.state == BufferingInPause {
      var pre := [Engine(SourceRemoveEventListener), Engine(RemoveListener), Engine(Release)];
      assert r.effects == [Listener(ListenerEvent.OnEnded)] + pre + [Listener(OnStateChanged(Destroyed))] + [];
      LastReportedIs([Listener(ListenerEvent.OnEnded)] + pre, Destroyed, [], c.state);
    } else if c.state != Destroyed && c.state != Paused {
      var head := [Listener(ListenerEvent.OnEnded)] + (if c.hasNotifier then [Notifier(Stop)] else [])
                  + [Engine(SetPlayWhenReady(false))];
      var tail := [Engine(SeekTo(0, 0)), Listener(OnSeekPositionChanged(positionMillis))];
      assert r.effects == head + [Listener(OnStateChanged(r.coord.state))] + tail;
      LastReportedIs(head, r.coord.state, tail, c.state);
    }
  }

  lemma DestroyWithErrorReports(c: Coord, error: Throwable)
    ensures var r := DestroyWithError(c, error);
      LastReported(r.effects, c.state) == r.coord.state
  {
    if c.state != Destroyed {
      var pre := [Listener(OnError(error)), Engine(SourceRemoveEventListener), Engine(RemoveListener), Engine(Release)];
      assert DestroyWithError(c, error).effects == pre + [Listener(OnStateChanged(Destroyed))] + [];
      LastReportedIs(pre, Destroyed, [], c.state);
    }
  }

  lemma PlayerStateChangedReports(c: Coord, playWhenReady: bool, playbackState: int, positionMillis: int)
    ensures var r := OnPlayerStateChanged(c, playWhenReady, playbackState, positionMillis);
      LastReported(r.effects, c.state) == r.coord.state
  {
    var r := OnPlayerStateChanged(c, playWhenReady, playbackState, positionMillis);
    if playbackState == STATE_BUFFERING && c.state != Destroyed {
      if c.state == Initialized || c.state == Paused {
        PauseFromReports(c, true);
      } else if c.state == Playing || c.state == BufferingInPlay {
        assert r.effects == [] + [Listener(OnStateChanged(BufferingInPlay))] + [];
        LastReportedIs([], BufferingInPlay, [], c.state);
      }
    } else if playbackState == STATE_READY && c.state != Destroyed {
      if c.state == Initialized || c.state == BufferingInPause {
        PauseFromReports(c, false);
      } else if c.state == BufferingInPlay {
        PlayFromReports(c, true, true);
      }
    } else if playbackState == STATE_ENDED {
      OnEndedReports(c, positionMillis);
    } else if playbackState != STATE_BUFFERING && playbackState != STATE_READY {
      DestroyReports(c);
    }
  }

  lemma InitReports(c: Coord)
    ensures LastReported(Init(c).effects, c.state) == Init(c).coord.state
  {
    if c.state == Initialized {
      LastReportedSilent(Init(c).effects, c.state);
    } else {
      DestroyReports(c);
    }
  }

  /** Seeks, speed changes and the getters report nothing and change no state. */
  lemma QuietCommandReports(c: Coord, i: Input)
    requires i.UserSetSeekPosition? || i.UserSetSpeed? || i.UserGetSpeed? || i.UserGetTotalDuration?
    ensures LastReported(Apply(c, i).effects, c.state) == Apply(c, i).coord.state
  {
    var r := Apply(c, i);
    assert r.coord == c && Silent(r.effects);
    LastReportedSilent(r.effects, c.state);
  }

  lemma CommandReports(c: Coord, i: Input)
    requires IsCommand(i)
    ensures LastReported(Apply(c, i).effects, c.state) == Apply(c, i).coord.state
  {
    match i
    case UserPlay =>
      assert Apply(c, i) == PlayFrom(c, !IsBuffering(c.state), false);
      PlayFromReports(c, !IsBuffering(c.state), false);
    case UserPause =>
      assert Apply(c, i) == PauseFrom(c, IsBuffering(c.state));
      PauseFromReports(c, IsBuffering(c.state));
    case UserDestroy =>
      assert Apply(c, i) == Destroy(c);
      DestroyReports(c);
    case UserInit =>
      assert Apply(c, i) == Init(c);
      InitReports(c);
    case _ =>
      QuietCommandReports(c, i);
  }

  lemma CallbackReports(c: Coord, i: Input)
    requires !IsCommand(i)
    ensures LastReported(Apply(c, i).effects, c.state) == Apply(c, i).coord.state
  {
    match i
    case EngineStateChanged(pwr, ps, p) =>
      assert Apply(c, i) == OnPlayerStateChanged(c, pwr, ps, p);
      PlayerStateChangedReports(c, pwr, ps, p);
    case EngineError(e) =>
      DestroyWithErrorReports(c, e);
    case EngineTimelineChanged(reason, t) =>
      if reason != TIMELINE_CHANGE_REASON_RESET && reason != TIMELINE_CHANGE_REASON_DYNAMIC && TimelineRefusal(t).Some? {
        assert Apply(c, i) == DestroyWithError(c, UnsupportedOperation(TimelineRefusal(t).value));
        DestroyWithErrorReports(c, UnsupportedOperation(TimelineRefusal(t).value));
      }
    case _ =>
      LastReportedSilent(Apply(c, i).effects, c.state);
  }

  /** Every state change of one input is reported to the listener, and the
      last report names the new state. */
  lemma StepReportsState(c: Coord, i: Input)
    ensures LastReported(Apply(c, i).effects, c.state) == Apply(c, i).coord.state
  {
    if IsCommand(i) {
      CommandReports(c, i);
    } else {
      CallbackReports(c, i);
    }
  }

  /** After any sequence of inputs, the state the listener was last told of is
      the coordinator's state. */
  lemma {:induction false} ListenerTracksState(c: Coord, inputs: seq<Input>)
    ensures LastReported(Run(c, inputs).1, c.state) == Run(c, inputs).0.state
    decreases |inputs|
  {
    if inputs != [] {
      var s := Apply(c, inputs[0]);
      StepReportsState(c, inputs[0]);
      ListenerTracksState(s.coord, inputs[1..]);
      LastReportedAppend(s.effects, Run(s.coord, inputs[1..]).1, c.state);
    }
  }
}

/** Properties of single coordinator operations and of short scenarios,
    stated about the functions of CoordinatorSpec. */
module CoordinatorProperties {
  import opened PlayerTypes
  import opened CoordinatorSpec
  import opened CoordinatorRuns

  /** destroy() twice: the second call changes nothing and calls nothing. */
  lemma DestroyIsIdempotent(c: Coord)
    ensures Destroy(Destroy(c).coord) == Ok(Destroy(c).coord, [])
  {
  }

  /** init() from the field initialisers' state. */
  lemma InitFromInitial()
    ensures Init(Initial)
         == Ok(Initial, [Engine(SetPlayWhenReady(false)), Engine(SourceAddEventListener), Engine(AddListener), Engine(Prepare)])
  {
  }

  /** destroy() from any state but DESTROYED, in order. */
  lemma DestroyEffects(c: Coord)
    requires c.state != Destroyed
    ensures Destroy(c).effects
         == [Engine(SourceRemoveEventListener), Engine(RemoveListener), Engine(Release), Listener(OnStateChanged(Destroyed))]
  {
  }

  /** Construction then destroy(): every registration with the media source
      and the engine is undone, the engine is released, and the listener
      hears exactly one thing, DESTROYED. */
  lemma InitThenDestroyPairs()
    ensures var i := Init(Initial);
      var d := Destroy(i.coord);
      && i.thrown == None && d.coord.state == Destroyed
      && i.effects + d.effects
         == [Engine(SetPlayWhenReady(false)), Engine(SourceAddEventListener), Engine(AddListener), Engine(Prepare),
             Engine(SourceRemoveEventListener), Engine(RemoveListener), Engine(Release), Listener(OnStateChanged(Destroyed))]
      && ListenerEvents(i.effects + d.effects) == [OnStateChanged(Destroyed)]
  {
    InitFromInitial();
    DestroyEffects(Initial);
    var all := [Engine(SetPlayWhenReady(false)), Engine(SourceAddEventListener), Engine(AddListener), Engine(Prepare),
                Engine(SourceRemoveEventListener), Engine(RemoveListener), Engine(Release), Listener(OnStateChanged(Destroyed))];
    assert Init(Initial).effects + Destroy(Initial).effects == all;
    assert ListenerEvents(all) == [OnStateChanged(Destroyed)];
  }

  /** setTotalDuration then getTotalDuration: the duration written is the one read back. */
  lemma TotalDurationRoundTrip(c: Coord, durationMillis: int)
    requires SetTotalDuration(c, durationMillis).thrown.None?
    ensures GetTotalDuration(SetTotalDuration(c, durationMillis).coord) == Returned(durationMillis)
  {
  }

  /** setSpeed then getSpeed, once the engine has taken the parameters handed
      to it: the speed set is the speed read back. */
  lemma SpeedRoundTrip(c: Coord, speed: Float32, current: PlaybackParameters)
    requires c.state != Destroyed
    ensures var r := SetSpeed(c, speed, current);
      && r.effects[0].Engine? && r.effects[0].call.SetPlaybackParameters?
      && GetSpeed(r.coord, r.effects[0].call.parameters) == Returned(speed)
  {
  }

  /** play() then pause() from a consistent PAUSED player: back where it
      started; the notifier created by play() is the one pause() stops, and
      the listener hears PLAYING then PAUSED. */
  lemma PlayThenPause(c: Coord)
    requires c.state == Paused && Consistent(c)
    ensures var p := Play(c);
      var q := Pause(p.coord);
      && p.thrown == None && q.thrown == None && q.coord == c
      && p.effects + q.effects
         == [Listener(OnStateChanged(Playing)), Engine(SetPlayWhenReady(true)), Notifier(CreateAndStart),
             Notifier(Stop), Engine(SetPlayWhenReady(false)), Listener(OnStateChanged(Paused))]
      && ListenerEvents(p.effects + q.effects) == [OnStateChanged(Playing), OnStateChanged(Paused)]
  {
    var all := [Listener(OnStateChanged(Playing)), Engine(SetPlayWhenReady(true)), Notifier(CreateAndStart),
                Notifier(Stop), Engine(SetPlayWhenReady(false)), Listener(OnStateChanged(Paused))];
    assert Play(c).effects + Pause(Play(c).coord).effects == all;
    assert ListenerEvents(all) == [OnStateChanged(Playing), OnStateChanged(Paused)];
  }

  /** What ENDED does from INITIALIZED or PLAYING, call by call. */
  lemma EndedEffects(c: Coord, positionMillis: int)
    requires c.state == Initialized || c.state == Playing
    ensures CoordinatorSpec.OnEnded(c, positionMillis).effects
         == [Listener(ListenerEvent.OnEnded)]
            + ((if c.hasNotifier then [Notifier(Stop)] else [])
               + ([Engine(SetPlayWhenReady(false))]
                  + ([Listener(OnStateChanged(Paused))]
                     + ([Engine(SeekTo(0, 0))] + [Listener(OnSeekPositionChanged(positionMillis))]))))
  {
  }

  /** The listener calls among ENDED's calls, whether or not a notifier was stopped. */
  lemma EndedCallsHeard(hasNotifier: bool, positionMillis: int)
    ensures ListenerEvents([Listener(ListenerEvent.OnEnded)]
            + ((if hasNotifier then [Notifier(Stop)] else [])
               + ([Engine(SetPlayWhenReady(false))]
                  + ([Listener(OnStateChanged(Paused))]
                     + ([Engine(SeekTo(0, 0))] + [Listener(OnSeekPositionChanged(positionMillis))])))))
         == [ListenerEvent.OnEnded, OnStateChanged(Paused), OnSeekPositionChanged(positionMillis)]
  {
    var stop: seq<Effect> := if hasNotifier then [Notifier(Stop)] else [];
    var t4 := [Listener(OnSeekPositionChanged(positionMillis))];
    var t3 := [Engine(SeekTo(0, 0))] + t4;
    var t2 := [Listener(OnStateChanged(Paused))] + t3;
    var t1 := [Engine(SetPlayWhenReady(false))] + t2;
    ListenerEventsCons(Listener(OnSeekPositionChanged(positionMillis)), []);
    assert t4 == [Listener(OnSeekPositionChanged(positionMillis))] + [];
    ListenerEventsCons(Engine(SeekTo(0, 0)), t4);
    ListenerEventsCons(Listener(OnStateChanged(Paused)), t3);
    ListenerEventsCons(Engine(SetPlayWhenReady(false)), t2);
    if hasNotifier {
      ListenerEventsCons(Notifier(Stop), t1);
    } else {
      assert stop + t1 == t1;
    }
    ListenerEventsCons(Listener(ListenerEvent.OnEnded), stop + t1);
  }

  /** The listener's view of ENDED from INITIALIZED or PLAYING: onEnded, then
      PAUSED, then the engine's position after the seek to 0. */
  lemma EndedListenerSequence(c: Coord, positionMillis: int)
    requires c.state == Initialized || c.state == Playing
    ensures ListenerEvents(CoordinatorSpec.OnEnded(c, positionMillis).effects)
            == [ListenerEvent.OnEnded, OnStateChanged(Paused), OnSeekPositionChanged(positionMillis)]
  {
    EndedEffects(c, positionMillis);
    EndedCallsHeard(c.hasNotifier, positionMillis);
  }

  /** ENDED arriving again after an ENDED that left the player PAUSED calls
      nothing at all. */
  lemma EndedTwiceIsSilent(c: Coord, playWhenReady1: bool, playWhenReady2: bool, position1: int, position2: int)
    requires c.state == Initialized || c.state == Playing || c.state == Paused
    ensures var first := OnPlayerStateChanged(c, playWhenReady1, STATE_ENDED, position1);
      && first.thrown == None
      && first.coord.state == Paused
      && OnPlayerStateChanged(first.coord, playWhenReady2, STATE_ENDED, position2) == Ok(first.coord, [])
  {
  }

  /** ENDED while BUFFERING_IN_PLAY leaves BUFFERING_IN_PAUSE, not PAUSED, so
      a repeated ENDED is not ignored: the listener hears onEnded a second
      time, then the player is destroyed and IllegalStateException thrown. */
  lemma {:induction false} EndedTwiceAfterBufferingInPlay(c: Coord, playWhenReady: bool, position1: int, position2: int)
    requires c.state == BufferingInPlay
    ensures var first := OnPlayerStateChanged(c, playWhenReady, STATE_ENDED, position1);
      var second := OnPlayerStateChanged(first.coord, playWhenReady, STATE_ENDED, position2);
      && first.thrown == None
      && first.coord.state == BufferingInPause
      && second.thrown == Some(IllegalState)
      && second.coord.state == Destroyed
      && ListenerEvents(second.effects) == [ListenerEvent.OnEnded, OnStateChanged(Destroyed)]
  {
    var first := OnPlayerStateChanged(c, playWhenReady, STATE_ENDED, position1);
    var e1 := CoordinatorSpec.OnEnded(c, position1);
    assert first == e1;
    assert e1.coord.state == BufferingInPause && e1.thrown == None;
    var second := OnPlayerStateChanged(e1.coord, playWhenReady, STATE_ENDED, position2);
    var e2 := CoordinatorSpec.OnEnded(e1.coord, position2);
    assert second == e2;
    var pre := [Engine(SourceRemoveEventListener), Engine(RemoveListener), Engine(Release), Listener(OnStateChanged(Destroyed))];
    assert Destroy(e1.coord).effects == pre;
    assert e2.effects == [Listener(ListenerEvent.OnEnded)] + pre;
    assert ListenerEvents(pre) == [OnStateChanged(Destroyed)];
    ListenerEventsCons(Listener(ListenerEvent.OnEnded), pre);
  }

  /** READY does not look at playWhenReady. */
  lemma ReadyIgnoresPlayWhenReady(c: Coord, positionMillis: int)
    ensures OnPlayerStateChanged(c, true, STATE_READY, positionMillis)
         == OnPlayerStateChanged(c, false, STATE_READY, positionMillis)
  {
  }

  /** The four steps of the scenario below, one at a time. */
  lemma ScenarioBuffering(c: Coord, positionMillis: int)
    requires c == Coord(Initialized, false, None)
    ensures Apply(c, EngineStateChanged(false, STATE_BUFFERING, positionMillis))
         == Ok(Coord(BufferingInPause, false, None),
               [Engine(SetPlayWhenReady(false)), Listener(OnStateChanged(BufferingInPause))])
  {
  }

  lemma ScenarioReady(c: Coord, positionMillis: int)
    requires c == Coord(BufferingInPause, false, None)
    ensures Apply(c, EngineStateChanged(false, STATE_READY, positionMillis))
         == Ok(Coord(Paused, false, None), [Engine(SetPlayWhenReady(false)), Listener(OnStateChanged(Paused))])
  {
  }

  lemma ScenarioPlay(c: Coord)
    requires c == Coord(Paused, false, None)
    ensures Apply(c, UserPlay)
         == Ok(Coord(Playing, true, None),
               [Listener(OnStateChanged(Playing)), Engine(SetPlayWhenReady(true)), Notifier(CreateAndStart)])
  {
  }

  lemma ScenarioPause(c: Coord)
    requires c == Coord(Playing, true, None)
    ensures Apply(c, UserPause)
         == Ok(Coord(Paused, false, None),
               [Notifier(Stop), Engine(SetPlayWhenReady(false)), Listener(OnStateChanged(Paused))])
  {
  }

  /** A run of one more input: its step first, then the rest. */
  lemma RunCons(c: Coord, i: Input, rest: seq<Input>)
    ensures var s := Apply(c, i);
      Run(c, [i] + rest) == (Run(s.coord, rest).0, s.effects + Run(s.coord, rest).1)
  {
    assert ([i] + rest)[0] == i;
    assert ([i] + rest)[1..] == rest;
  }

  lemma ScenarioFromPaused(c: Coord)
    requires c == Coord(Paused, false, None)
    ensures Run(c, [UserPlay, UserPause])
         == (Coord(Paused, false, None),
             [Listener(OnStateChanged(Playing)), Engine(SetPlayWhenReady(true)), Notifier(CreateAndStart),
              Notifier(Stop), Engine(SetPlayWhenReady(false)), Listener(OnStateChanged(Paused))])
  {
    var c3 := Coord(Playing, true, None);
    ScenarioPlay(c);
    ScenarioPause(c3);
    RunCons(c3, UserPause, []);
    assert [UserPause] + [] == [UserPause];
    RunCons(c, UserPlay, [UserPause]);
    assert [UserPlay] + [UserPause] == [UserPlay, UserPause];
    assert Run(c, []) == (c, []);
    var play := [Listener(OnStateChanged(Playing)), Engine(SetPlayWhenReady(true)), Notifier(CreateAndStart)];
    var pause := [Notifier(Stop), Engine(SetPlayWhenReady(false)), Listener(OnStateChanged(Paused))];
    assert Run(c3, [UserPause]) == (c, pause + []);
    assert play + (pause + []) == play + pause;
    assert Run(c, [UserPlay, UserPause]) == (c, play + pause);
    assert play + pause
        == [Listener(OnStateChanged(Playing)), Engine(SetPlayWhenReady(true)), Notifier(CreateAndStart),
            Notifier(Stop), Engine(SetPlayWhenReady(false)), Listener(OnStateChanged(Paused))];
  }

  lemma ScenarioFromBuffering(c: Coord, positionMillis: int)
    requires c == Coord(BufferingInPause, false, None)
    ensures Run(c, [EngineStateChanged(false, STATE_READY, positionMillis), UserPlay, UserPause])
         == (Coord(Paused, false, None),
             [Engine(SetPlayWhenReady(false)), Listener(OnStateChanged(Paused)),
              Listener(OnStateChanged(Playing)), Engine(SetPlayWhenReady(true)), Notifier(CreateAndStart),
              Notifier(Stop), Engine(SetPlayWhenReady(false)), Listener(OnStateChanged(Paused))])
  {
    var c2 := Coord(Paused, false, None);
    ScenarioReady(c, positionMillis);
    ScenarioFromPaused(c2);
    var ready := EngineStateChanged(false, STATE_READY, positionMillis);
    RunCons(c, ready, [UserPlay, UserPause]);
    assert [ready] + [UserPlay, UserPause] == [ready, UserPlay, UserPause];
    var readyEffects := [Engine(SetPlayWhenReady(false)), Listener(OnStateChanged(Paused))];
    var rest := [Listener(OnStateChanged(Playing)), Engine(SetPlayWhenReady(true)), Notifier(CreateAndStart),
                 Notifier(Stop), Engine(SetPlayWhenReady(false)), Listener(OnStateChanged(Paused))];
    assert Run(c, [ready, UserPlay, UserPause]) == (c2, readyEffects + rest);
    assert readyEffects + rest
        == [Engine(SetPlayWhenReady(false)), Listener(OnStateChanged(Paused)),
            Listener(OnStateChanged(Playing)), Engine(SetPlayWhenReady(true)), Notifier(CreateAndStart),
            Notifier(Stop), Engine(SetPlayWhenReady(false)), Listener(OnStateChanged(Paused))];
  }

  /** Construction, BUFFERING, READY(playWhenReady = false), play(), pause():
      the player ends PAUSED with no notifier, having started one notifier
      and stopped it. */
  lemma {:induction false} BufferReadyPlayPause(positionMillis: int)
    ensures var start := Init(Initial).coord;
      Run(start, [EngineStateChanged(false, STATE_BUFFERING, positionMillis),
                  EngineStateChanged(false, STATE_READY, positionMillis),
                  UserPlay, UserPause])
      == (Coord(Paused, false, None),
          [Engine(SetPlayWhenReady(false)), Listener(OnStateChanged(BufferingInPause)),
           Engine(SetPlayWhenReady(false)), Listener(OnStateChanged(Paused)),
           Listener(OnStateChanged(Playing)), Engine(SetPlayWhenReady(true)), Notifier(CreateAndStart),
           Notifier(Stop), Engine(SetPlayWhenReady(false)), Listener(OnStateChanged(Paused))])
  {
    InitFromInitial();
    var c0 := Init(Initial).coord;
    var c1 := Coord(BufferingInPause, false, None);
    var buffering := EngineStateChanged(false, STATE_BUFFERING, positionMillis);
    var ready := EngineStateChanged(false, STATE_READY, positionMillis);
    ScenarioBuffering(c0, positionMillis);
    ScenarioFromBuffering(c1, positionMillis);
    RunCons(c0, buffering, [ready, UserPlay, UserPause]);
    assert [buffering] + [ready, UserPlay, UserPause] == [buffering, ready, UserPlay, UserPause];
    var bufferEffects := [Engine(SetPlayWhenReady(false)), Listener(OnStateChanged(BufferingInPause))];
    var rest := [Engine(SetPlayWhenReady(false)), Listener(OnStateChanged(Paused)),
                 Listener(OnStateChanged(Playing)), Engine(SetPlayWhenReady(true)), Notifier(CreateAndStart),
                 Notifier(Stop), Engine(SetPlayWhenReady(false)), Listener(OnStateChanged(Paused))];
    assert Run(c0, [buffering, ready, UserPlay, UserPause]) == (Coord(Paused, false, None), bufferEffects + rest);
    assert bufferEffects + rest
        == [Engine(SetPlayWhenReady(false)), Listener(OnStateChanged(BufferingInPause)),
            Engine(SetPlayWhenReady(false)), Listener(OnStateChanged(Paused)),
            Listener(OnStateChanged(Playing)), Engine(SetPlayWhenReady(true)), Notifier(CreateAndStart),
            Notifier(Stop), Engine(SetPlayWhenReady(false)), Listener(OnStateChanged(Paused))];
  }
}

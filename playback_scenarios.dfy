/** Whole lives of a player and its seek notifier on one handler: what the
    player calls, and what is left on the handler's queue. */
module PlaybackScenarios {
  import opened PlayerTypes
  import opened Playback
  import CoordinatorSpec

  /** A new player whose engine becomes READY: it pauses, with no notifier. */
  method ReadyPlayer(intervalMillis: int) returns (p: HlsPlayer, h: Handler)
    ensures fresh(p) && fresh(h)
    ensures p.handler == h && p.seekCheckIntervalMillis == intervalMillis && p.Valid()
    ensures p.Abs() == CoordinatorSpec.Coord(Paused, false, None)
    ensures h.queue == []
    ensures p.calls
         == [Engine(SetPlayWhenReady(false)), Engine(SourceAddEventListener), Engine(AddListener), Engine(Prepare),
             Engine(SetPlayWhenReady(false)), Listener(OnStateChanged(Paused))]
  {
    h := new Handler();
    p := new HlsPlayer(h, intervalMillis);
    ghost var start := p.calls;
    assert start == [Engine(SetPlayWhenReady(false)), Engine(SourceAddEventListener), Engine(AddListener), Engine(Prepare)];
    var thrown := p.OnPlayerStateChanged(false, STATE_READY, 0);
    assert p.calls == start + [Engine(SetPlayWhenReady(false)), Listener(OnStateChanged(Paused))];
  }

  /** The player above, then told to play(): a fresh notifier is attached
      and its first poll is queued. */
  method StartPlaying(intervalMillis: int) returns (p: HlsPlayer, h: Handler, n: SeekNotifier)
    ensures fresh(p) && fresh(h) && fresh(n)
    ensures p.handler == h && p.seekCheckIntervalMillis == intervalMillis && p.Valid() && p.seekNotifier == n
    ensures p.Abs() == CoordinatorSpec.Coord(Playing, true, None)
    ensures h.queue == [Posted(n, 0)]
    ensures p.calls
         == [Engine(SetPlayWhenReady(false)), Engine(SourceAddEventListener), Engine(AddListener), Engine(Prepare),
             Engine(SetPlayWhenReady(false)), Listener(OnStateChanged(Paused)),
             Listener(OnStateChanged(Playing)), Engine(SetPlayWhenReady(true)), Notifier(CreateAndStart)]
  {
    p, h := ReadyPlayer(intervalMillis);
    ghost var ready := p.calls;
    var thrown := p.Play();
    assert p.calls == ready + [Listener(OnStateChanged(Playing)), Engine(SetPlayWhenReady(true)), Notifier(CreateAndStart)];
    n := p.seekNotifier;
  }

  /** The engine becomes READY, play() starts a notifier, its first poll
      reports the position and re-posts itself, and pause() stops it. The
      poll still queued then runs, reports nothing and is not re-posted. */
  method PollThenPause(intervalMillis: int, position1: int, position2: int) returns (p: HlsPlayer, h: Handler)
    ensures p.handler == h
    ensures p.state == Paused && p.seekNotifier == null && h.queue == []
    ensures p.calls
         == [Engine(SetPlayWhenReady(false)), Engine(SourceAddEventListener), Engine(AddListener), Engine(Prepare),
             Engine(SetPlayWhenReady(false)), Listener(OnStateChanged(Paused)),
             Listener(OnStateChanged(Playing)), Engine(SetPlayWhenReady(true)), Notifier(CreateAndStart),
             Listener(OnSeekPositionChanged(position1)),
             Notifier(Stop), Engine(SetPlayWhenReady(false)), Listener(OnStateChanged(Paused))]
  {
    var n;
    p, h, n := StartPlaying(intervalMillis);
    ghost var playing := p.calls;
    h.RunNext(p, position1);
    assert h.queue == [Posted(n, intervalMillis)];
    assert p.calls == playing + [Listener(OnSeekPositionChanged(position1))];
    ghost var polled := p.calls;
    var thrown := p.Pause();
    assert p.calls == polled + [Notifier(Stop), Engine(SetPlayWhenReady(false)), Listener(OnStateChanged(Paused))];
    h.RunNext(p, position2);
  }

  /** destroy() while PLAYING leaves the notifier attached: its poll keeps
      re-posting itself, but reports nothing to the listener. */
  method DestroyWhilePlaying(intervalMillis: int, positionMillis: int) returns (p: HlsPlayer, h: Handler)
    ensures p.handler == h
    ensures p.state == Destroyed && p.seekNotifier != null && p.seekNotifier.instance == p
    ensures h.queue == [Posted(p.seekNotifier, intervalMillis)]
    ensures p.calls
         == [Engine(SetPlayWhenReady(false)), Engine(SourceAddEventListener), Engine(AddListener), Engine(Prepare),
             Engine(SetPlayWhenReady(false)), Listener(OnStateChanged(Paused)),
             Listener(OnStateChanged(Playing)), Engine(SetPlayWhenReady(true)), Notifier(CreateAndStart),
             Engine(SourceRemoveEventListener), Engine(RemoveListener), Engine(Release),
             Listener(OnStateChanged(Destroyed))]
  {
    var n;
    p, h, n := StartPlaying(intervalMillis);
    ghost var playing := p.calls;
    p.Destroy();
    assert p.calls == playing + [Engine(SourceRemoveEventListener), Engine(RemoveListener), Engine(Release),
                                 Listener(OnStateChanged(Destroyed))];
    ghost var destroyed := p.calls;
    h.RunNext(p, positionMillis);
    assert p.calls == destroyed;
  }
}

/** HlsPlayer and SeekNotifier as objects whose methods update their fields.

    Each HlsPlayer method is proved against the CoordinatorSpec function of
    the same name: the player's fields afterwards are that function's
    coordinator state, the calls it made are appended to `calls`, and the
    exception it threw is returned in `thrown`. The seek notifier and the
    handler it posts to are modelled as objects, so that what the spec only
    records as CreateAndStart and Stop is here a fresh notifier attached to
    the player, a runnable on the handler's queue, and a detached notifier
    whose pending runnable no longer does anything. */
module Playback {
  import opened PlayerTypes
  import CoordinatorSpec

  /** A runnable posted on the handler: a notifier's poll, and the delay it
      was posted with. */
  datatype Posted = Posted(notifier: SeekNotifier, delayMillis: int)

  /** How many of the posted runnables belong to notifier `n`. */
  function Pending(queue: seq<Posted>, n: SeekNotifier): nat
  {
    if queue == [] then 0
    else (if queue[0].notifier == n then 1 else 0) + Pending(queue[1..], n)
  }

  lemma {:induction false} PendingAppend(a: seq<Posted>, b: seq<Posted>, n: SeekNotifier)
    ensures Pending(a + b, n) == Pending(a, n) + Pending(b, n)
  {
    if a == [] {
      assert a + b == b;
    } else {
      assert (a + b)[0] == a[0];
      assert (a + b)[1..] == a[1..] + b;
      PendingAppend(a[1..], b, n);
    }
  }

  lemma {:induction false} PendingAbsent(queue: seq<Posted>, n: SeekNotifier)
    requires forall i :: 0 <= i < |queue| ==> queue[i].notifier != n
    ensures Pending(queue, n) == 0
  {
    if queue != [] {
      PendingAbsent(queue[1..], n);
    }
  }

  /** How a player's notifier hangs together with the handler, stated over
      the player's fields but without reading the player: the handler's
      queue is well formed; the held notifier `n` is attached to the player,
      posts on its handler with its interval, and has exactly one poll
      pending; and any queued poll of a notifier attached to the player is
      the held notifier's. */
  ghost predicate Attached(player: HlsPlayer, h: Handler, n: SeekNotifier?, intervalMillis: int)
    reads h, n, set i | 0 <= i < |h.queue| :: h.queue[i].notifier
  {
    && h.Valid()
    && (n != null ==>
          && n.instance == player
          && n.handler == h
          && n.seekCheckIntervalMillis == intervalMillis
          && Pending(h.queue, n) == 1)
    && (forall i :: 0 <= i < |h.queue| && h.queue[i].notifier.instance == player ==> h.queue[i].notifier == n)
  }

  /** The Android handler, as the queue of runnables posted on it and not
      yet run. They run one at a time, in the order they were posted; the
      delays are recorded but no clock is modelled. */
  class Handler {
    var queue: seq<Posted>

    /** Every queued poll was posted by a notifier on this handler. */
    predicate Valid()
      reads this
    {
      forall i :: 0 <= i < |queue| ==> queue[i].notifier.handler == this
    }

    constructor()
      ensures Valid() && queue == []
    {
      queue := [];
    }

    /** Handler.postDelayed, for a notifier that posts on this handler. */
    method PostDelayed(n: SeekNotifier, delayMillis: int)
      requires Valid() && n.handler == this
      modifies this
      ensures Valid()
      ensures queue == old(queue) + [Posted(n, delayMillis)]
    {
      queue := queue + [Posted(n, delayMillis)];
    }

    /** The looper runs the oldest pending runnable. A runnable whose
        notifier was stopped does nothing and is gone; one whose notifier is
        attached to a player does that player's tick (a position report
        while it is PLAYING) and re-posts itself with the notifier's
        interval. The player that owns this handler stays valid. */
    method RunNext(ghost owner: HlsPlayer, positionMillis: int)
      requires Valid() && queue != []
      requires owner.handler == this && owner.Valid()
      modifies this, queue[0].notifier.instance
      ensures Valid() && owner.Valid()
      ensures var n := old(queue[0].notifier);
        var p := old(n.instance);
        && n.instance == p
        && (p == null ==> queue == old(queue[1..]))
        && (p != null ==>
              && queue == old(queue[1..]) + [Posted(n, n.seekCheckIntervalMillis)]
              && p.Abs() == old(p.Abs())
              && p.calls == old(p.calls) + CoordinatorSpec.LiveTick(old(p.Abs()), positionMillis).effects)
      ensures var n := old(queue[0].notifier);
        old(n.instance) == owner ==> n == owner.seekNotifier
    {
      var n := queue[0].notifier;
      queue := queue[1..];
      ghost var rest := queue;
      n.Run(positionMillis);
      if owner.seekNotifier != null && n.instance != null {
        PendingAppend(rest, [Posted(n, n.seekCheckIntervalMillis)], owner.seekNotifier);
      }
    }
  }

  /** SeekNotifier: while attached to a player it polls the engine's position
      every `seekCheckIntervalMillis` on the handler, and reports it to the
      player's listener while the player is PLAYING. */
  class SeekNotifier {
    const handler: Handler
    const seekCheckIntervalMillis: int
    var instance: HlsPlayer?

    constructor(handler: Handler, seekCheckIntervalMillis: int)
      ensures this.handler == handler && this.seekCheckIntervalMillis == seekCheckIntervalMillis
      ensures instance == null
    {
      this.handler := handler;
      this.seekCheckIntervalMillis := seekCheckIntervalMillis;
      instance := null;
    }

    /** stop(): detaches the player; a runnable already posted stays queued. */
    method Stop()
      modifies this
      ensures instance == null
    {
      instance := null;
    }

    /** start(p): attaches the player and posts the first poll at once. */
    method Start(p: HlsPlayer)
      requires handler.Valid()
      modifies this, handler
      ensures handler.Valid()
      ensures instance == p
      ensures handler.queue == old(handler.queue) + [Posted(this, 0)]
    {
      instance := p;
      var thrown := PostDelayed(0);
      assert thrown == None;
    }

    /** The private postDelayed: posting with no player attached throws. */
    method PostDelayed(delayMillis: int) returns (thrown: Option<Exception>)
      requires handler.Valid()
      modifies handler
      ensures handler.Valid()
      ensures thrown.Some? <==> instance == null
      ensures thrown.Some? ==> thrown.value == IllegalState && handler.queue == old(handler.queue)
      ensures thrown.None? ==> handler.queue == old(handler.queue) + [Posted(this, delayMillis)]
    {
      if instance == null {
        return Some(IllegalState);
      }
      handler.PostDelayed(this, delayMillis);
      thrown := None;
    }

    /** The runnable: nothing once detached; otherwise a position report
        while the player is PLAYING, then the next poll. It never throws. */
    method Run(positionMillis: int)
      requires handler.Valid()
      modifies handler, instance
      ensures handler.Valid()
      ensures instance == old(instance)
      ensures instance != null ==> instance.seekNotifier == old(instance.seekNotifier)
      ensures instance == null ==> handler.queue == old(handler.queue)
      ensures instance != null ==>
        && handler.queue == old(handler.queue) + [Posted(this, seekCheckIntervalMillis)]
        && instance.Abs() == old(instance.Abs())
        && instance.calls == old(instance.calls) + CoordinatorSpec.LiveTick(old(instance.Abs()), positionMillis).effects
    {
      if instance == null {
        return;
      }
      var p := instance;
      if p.state == Playing {
        p.NotifySeekPositionManually(positionMillis);
      }
      var thrown := PostDelayed(seekCheckIntervalMillis);
      assert thrown == None;
    }
  }

  /** HlsPlayer: the state machine between the application, the engine and
      the seek notifier. The engine, the media source and the listener are
      not modelled beyond the record `calls` of what the player asked of
      them, in order; what it reads from the engine (the current position,
      the playback parameters) is passed in. */
  class HlsPlayer {
    var state: State
    var seekNotifier: SeekNotifier?
    var totalDuration: Option<int>
    const handler: Handler
    const seekCheckIntervalMillis: int
    var calls: seq<Effect>

    /** The fields CoordinatorSpec is about. */
    function Abs(): CoordinatorSpec.Coord
      reads this
    {
      CoordinatorSpec.Coord(state, seekNotifier != null, totalDuration)
    }

    /** The notifier is held exactly while the player means to play, and it
        is linked to the player as Linked says. */
    ghost predicate Valid()
      reads this, handler, seekNotifier, set i | 0 <= i < |handler.queue| :: handler.queue[i].notifier
    {
      CoordinatorSpec.Consistent(Abs()) && Linked()
    }

    /** The held notifier and the handler's queue are as Attached says. */
    ghost predicate Linked()
      reads this, handler, seekNotifier, set i | 0 <= i < |handler.queue| :: handler.queue[i].notifier
    {
      Attached(this, handler, seekNotifier, seekCheckIntervalMillis)
    }

    /** The effect of one operation: the spec step `s` taken from the state
        before, with `before` the calls made until then. */
    ghost predicate Took(s: CoordinatorSpec.Step, before: seq<Effect>, thrown: Option<Exception>)
      reads this
    {
      Abs() == s.coord && calls == before + s.effects && thrown == s.thrown
    }

    /** The constructor over an engine and a media source: the fields'
        initial values, then init(). */
    constructor(handler: Handler, seekCheckIntervalMillis: int)
      requires handler.Valid()
      ensures this.handler == handler && this.seekCheckIntervalMillis == seekCheckIntervalMillis
      ensures Valid()
      ensures Abs() == CoordinatorSpec.Initial
      ensures calls == CoordinatorSpec.Init(CoordinatorSpec.Initial).effects
    {
      state := Initialized;
      seekNotifier := null;
      totalDuration := None;
      this.handler := handler;
      this.seekCheckIntervalMillis := seekCheckIntervalMillis;
      calls := [];
      new;
      var thrown := Init();
    }

    /** init(). */
    method Init() returns (thrown: Option<Exception>)
      requires Valid()
      modifies this
      ensures Valid() && seekNotifier == old(seekNotifier)
      ensures Took(CoordinatorSpec.Init(old(Abs())), old(calls), thrown)
    {
      if state != Initialized {
        Destroy();
        return Some(IllegalState);
      }
      calls := calls + [Engine(SetPlayWhenReady(false)), Engine(SourceAddEventListener), Engine(AddListener), Engine(Prepare)];
      thrown := None;
    }

    /** setState. */
    method SetState(s: State)
      requires Linked()
      modifies this
      ensures Linked() && seekNotifier == old(seekNotifier)
      ensures Took(CoordinatorSpec.SetState(old(Abs()), s), old(calls), None)
    {
      state := s;
      calls := calls + [Listener(OnStateChanged(s))];
    }

    /** destroy(). */
    method Destroy()
      requires Valid()
      modifies this
      ensures Valid() && seekNotifier == old(seekNotifier)
      ensures Took(CoordinatorSpec.Destroy(old(Abs())), old(calls), None)
    {
      if state == Destroyed {
        return;
      }
      calls := calls + [Engine(SourceRemoveEventListener), Engine(RemoveListener), Engine(Release)];
      SetState(Destroyed);
    }

    /** destroyWithError. */
    method DestroyWithError(error: Throwable)
      requires Valid()
      modifies this
      ensures Valid() && seekNotifier == old(seekNotifier)
      ensures Took(CoordinatorSpec.DestroyWithError(old(Abs()), error), old(calls), None)
    {
      if state == Destroyed {
        return;
      }
      calls := calls + [Listener(OnError(error))];
      Destroy();
    }

    /** assertInitialized. */
    method AssertInitialized() returns (thrown: Option<Exception>)
      requires Valid()
      modifies this
      ensures Valid() && seekNotifier == old(seekNotifier)
      ensures Took(CoordinatorSpec.AssertInitialized(old(Abs())), old(calls), thrown)
    {
      if state == Destroyed {
        Destroy();
        return Some(IllegalState);
      }
      thrown := None;
    }

    /** assertPaused. */
    method AssertPaused() returns (thrown: Option<Exception>)
      requires Valid()
      modifies this
      ensures Valid() && seekNotifier == old(seekNotifier)
      ensures Took(CoordinatorSpec.AssertPaused(old(Abs())), old(calls), thrown)
    {
      if state != Paused && state != BufferingInPause {
        Destroy();
        return Some(IllegalState);
      }
      thrown := None;
    }

    /** assertPausable. */
    method AssertPausable() returns (thrown: Option<Exception>)
      requires Valid()
      modifies this
      ensures Valid() && seekNotifier == old(seekNotifier)
      ensures Took(CoordinatorSpec.AssertPausable(old(Abs())), old(calls), thrown)
    {
      if state == Destroyed || state == Paused {
        Destroy();
        return Some(IllegalState);
      }
      thrown := None;
    }

    /** assertBufferingPausable. */
    method AssertBufferingPausable() returns (thrown: Option<Exception>)
      requires Valid()
      modifies this
      ensures Valid() && seekNotifier == old(seekNotifier)
      ensures Took(CoordinatorSpec.AssertBufferingPausable(old(Abs())), old(calls), thrown)
    {
      if state == Destroyed || state == BufferingInPause {
        Destroy();
        return Some(IllegalState);
      }
      thrown := None;
    }

    /** assertBuffering. */
    method AssertBuffering() returns (thrown: Option<Exception>)
      requires Valid()
      modifies this
      ensures Valid() && seekNotifier == old(seekNotifier)
      ensures Took(CoordinatorSpec.AssertBuffering(old(Abs())), old(calls), thrown)
    {
      if state != BufferingInPlay && state != BufferingInPause {
        Destroy();
        return Some(IllegalState);
      }
      thrown := None;
    }

    /** The private play(currentlyInBuffering, continueToReady). A notifier
        is created, attached and given its first poll only when none is held. */
    method PlayFrom(currentlyInBuffering: bool, continueToReady: bool) returns (thrown: Option<Exception>)
      requires Valid()
      modifies this, handler
      ensures Valid()
      ensures Took(CoordinatorSpec.PlayFrom(old(Abs()), currentlyInBuffering, continueToReady), old(calls), thrown)
      ensures seekNotifier != old(seekNotifier) ==>
        && old(seekNotifier) == null && fresh(seekNotifier)
        && handler.queue == old(handler.queue) + [Posted(seekNotifier, 0)]
      ensures seekNotifier == old(seekNotifier) ==> handler.queue == old(handler.queue)
    {
      if currentlyInBuffering && continueToReady {
        thrown := AssertBuffering();
      } else {
        thrown := AssertPaused();
      }
      if thrown.Some? {
        return;
      }
      ghost var c := Abs();
      assert c == old(Abs()) && calls == old(calls);
      SetState(Playing);
      calls := calls + [Engine(SetPlayWhenReady(true))];
      if seekNotifier == null {
        StartNotifier();
      }
      assert Abs() == c.(state := Playing, hasNotifier := true);
      assert calls == old(calls) + ([Listener(OnStateChanged(Playing)), Engine(SetPlayWhenReady(true))]
                                    + (if c.hasNotifier then [] else [Notifier(CreateAndStart)]));
    }

    /** The notifier part of play(): a fresh notifier from the dependencies,
        attached to this player, with its first poll posted. */
    method StartNotifier()
      requires Linked() && seekNotifier == null
      modifies this, handler
      ensures Linked()
      ensures Abs() == old(Abs()).(hasNotifier := true)
      ensures calls == old(calls) + [Notifier(CreateAndStart)]
      ensures fresh(seekNotifier) && handler.queue == old(handler.queue) + [Posted(seekNotifier, 0)]
    {
      var n := new SeekNotifier(handler, seekCheckIntervalMillis);
      seekNotifier := n;
      calls := calls + [Notifier(CreateAndStart)];
      ghost var before := handler.queue;
      PendingAbsent(before, n);
      n.Start(this);
      PendingAppend(before, [Posted(n, 0)], n);
    }

    /** play(). */
    method Play() returns (thrown: Option<Exception>)
      requires Valid()
      modifies this, handler
      ensures Valid()
      ensures Took(CoordinatorSpec.Play(old(Abs())), old(calls), thrown)
      ensures seekNotifier != old(seekNotifier) ==>
        && old(seekNotifier) == null && fresh(seekNotifier)
        && handler.queue == old(handler.queue) + [Posted(seekNotifier, 0)]
      ensures seekNotifier == old(seekNotifier) ==> handler.queue == old(handler.queue)
    {
      thrown := PlayFrom(!CoordinatorSpec.IsBuffering(state), false);
    }

    /** The private pause(inBuffering): the held notifier is stopped and
        dropped; its pending poll stays queued but is detached. */
    method PauseFrom(inBuffering: bool) returns (thrown: Option<Exception>)
      requires Valid()
      modifies this, seekNotifier
      ensures Valid()
      ensures Took(CoordinatorSpec.PauseFrom(old(Abs()), inBuffering), old(calls), thrown)
      ensures seekNotifier != old(seekNotifier) ==> seekNotifier == null && old(seekNotifier).instance == null
    {
      if !inBuffering {
        thrown := AssertPausable();
      } else {
        thrown := AssertBufferingPausable();
      }
      if thrown.Some? {
        return;
      }
      ghost var c := Abs();
      assert c == old(Abs()) && calls == old(calls);
      if seekNotifier != null {
        StopNotifier();
      }
      calls := calls + [Engine(SetPlayWhenReady(false))];
      SetState(if inBuffering then BufferingInPause else Paused);
      assert calls == old(calls) + ((if c.hasNotifier then [Notifier(Stop)] else [])
                                    + [Engine(SetPlayWhenReady(false)), Listener(OnStateChanged(state))]);
    }

    /** The notifier part of pause(): the held notifier is detached and
        dropped; its pending poll stays queued but will do nothing. */
    method StopNotifier()
      requires Linked() && seekNotifier != null
      modifies this, seekNotifier
      ensures Linked()
      ensures Abs() == old(Abs()).(hasNotifier := false)
      ensures calls == old(calls) + [Notifier(Stop)]
      ensures old(seekNotifier).instance == null
    {
      seekNotifier.Stop();
      calls := calls + [Notifier(Stop)];
      seekNotifier := null;
    }

    /** pause(). */
    method Pause() returns (thrown: Option<Exception>)
      requires Valid()
      modifies this, seekNotifier
      ensures Valid()
      ensures Took(CoordinatorSpec.Pause(old(Abs())), old(calls), thrown)
      ensures seekNotifier != old(seekNotifier) ==> seekNotifier == null && old(seekNotifier).instance == null
    {
      thrown := PauseFrom(CoordinatorSpec.IsBuffering(state));
    }

    /** setSeekPosition. */
    method SetSeekPosition(positionMillis: int) returns (thrown: Option<Exception>)
      requires Valid()
      modifies this
      ensures Valid() && seekNotifier == old(seekNotifier)
      ensures Took(CoordinatorSpec.SetSeekPosition(old(Abs()), positionMillis), old(calls), thrown)
    {
      thrown := AssertInitialized();
      if thrown.Some? {
        return;
      }
      calls := calls + [Engine(SeekTo(0, positionMillis))];
    }

    /** setSpeed, given the engine's current playback parameters. */
    method SetSpeed(speed: Float32, current: PlaybackParameters) returns (thrown: Option<Exception>)
      requires Valid()
      modifies this
      ensures Valid() && seekNotifier == old(seekNotifier)
      ensures Took(CoordinatorSpec.SetSpeed(old(Abs()), speed, current), old(calls), thrown)
    {
      thrown := AssertInitialized();
      if thrown.Some? {
        return;
      }
      var parameters := PlaybackParameters(speed, current.pitch, current.skipSilence);
      calls := calls + [Engine(SetPlaybackParameters(parameters))];
    }

    /** getSpeed, given the engine's current playback parameters. */
    method GetSpeed(current: PlaybackParameters) returns (r: Outcome<Float32>)
      requires Valid()
      modifies this
      ensures Valid() && Abs() == old(Abs()) && calls == old(calls) && seekNotifier == old(seekNotifier)
      ensures r == CoordinatorSpec.GetSpeed(old(Abs()), current)
    {
      var thrown := AssertInitialized();
      if thrown.Some? {
        return Threw(thrown.value);
      }
      r := Returned(current.speed);
    }

    /** setTotalDuration. */
    method SetTotalDuration(durationMillis: int) returns (thrown: Option<Exception>)
      requires Valid()
      modifies this
      ensures Valid() && seekNotifier == old(seekNotifier)
      ensures Took(CoordinatorSpec.SetTotalDuration(old(Abs()), durationMillis), old(calls), thrown)
    {
      thrown := AssertInitialized();
      if thrown.Some? {
        return;
      }
      if totalDuration != None {
        return Some(IllegalState);
      }
      totalDuration := Some(durationMillis);
    }

    /** getTotalDuration. */
    method GetTotalDuration() returns (r: Outcome<int>)
      requires Valid()
      modifies this
      ensures Valid() && Abs() == old(Abs()) && calls == old(calls) && seekNotifier == old(seekNotifier)
      ensures r == CoordinatorSpec.GetTotalDuration(old(Abs()))
    {
      var thrown := AssertInitialized();
      if thrown.Some? {
        return Threw(thrown.value);
      }
      if totalDuration == None {
        return Threw(IllegalState);
      }
      r := Returned(totalDuration.value);
    }

    /** notifySeekPositionManually, given the engine's current position. */
    method NotifySeekPositionManually(positionMillis: int)
      modifies this
      ensures Abs() == old(Abs()) && seekNotifier == old(seekNotifier)
      ensures calls == old(calls) + CoordinatorSpec.NotifySeekPositionManually(old(Abs()), positionMillis).effects
    {
      calls := calls + [Listener(OnSeekPositionChanged(positionMillis))];
    }

    /** One call on the listener. */
    method Tell(event: ListenerEvent)
      requires Valid()
      modifies this
      ensures Valid() && seekNotifier == old(seekNotifier) && Abs() == old(Abs())
      ensures calls == old(calls) + [Listener(event)]
    {
      calls := calls + [Listener(event)];
    }

    /** onEnded, given the engine's position after the seek to 0. */
    method OnEnded(positionMillis: int) returns (thrown: Option<Exception>)
      requires Valid()
      modifies this, seekNotifier
      ensures Valid()
      ensures Took(CoordinatorSpec.OnEnded(old(Abs()), positionMillis), old(calls), thrown)
      ensures seekNotifier != old(seekNotifier) ==> seekNotifier == null && old(seekNotifier).instance == null
    {
      thrown := AssertInitialized();
      if thrown.None? && state != Paused {
        thrown := EndPlayback(positionMillis);
      }
    }

    /** The body of onEnded once the player is known to be live and not
        PAUSED: onEnded to the listener, pause(), a seek to 0, and a report of
        the position when no notifier is left. */
    method EndPlayback(positionMillis: int) returns (thrown: Option<Exception>)
      requires Valid() && state != Destroyed && state != Paused
      modifies this, seekNotifier
      ensures Valid()
      ensures Took(CoordinatorSpec.EndPlayback(old(Abs()), positionMillis), old(calls), thrown)
      ensures seekNotifier != old(seekNotifier) ==> seekNotifier == null && old(seekNotifier).instance == null
    {
      ghost var c := Abs();
      ghost var p := CoordinatorSpec.Then(CoordinatorSpec.Ok(c, [Listener(ListenerEvent.OnEnded)]), CoordinatorSpec.Pause(c));
      Tell(ListenerEvent.OnEnded);
      thrown := Pause();
      assert Took(p, old(calls), thrown);
      if thrown.None? {
        thrown := SetSeekPosition(0);
        // pause() has left the player PAUSED or BUFFERING_IN_PAUSE, so the seek cannot throw
        assert thrown == None;
        ghost var k := CoordinatorSpec.Then(p, CoordinatorSpec.SetSeekPosition(p.coord, 0));
        assert Took(k, old(calls), None);
        if seekNotifier == null {
          NotifySeekPositionManually(positionMillis);
        }
        ghost var r := CoordinatorSpec.Then(k, CoordinatorSpec.NotifySeekPositionManually(k.coord, positionMillis));
        assert calls == old(calls) + r.effects by {
          assert r.effects == k.effects + [Listener(OnSeekPositionChanged(positionMillis))];
        }
        assert r == CoordinatorSpec.EndPlayback(c, positionMillis);
      }
    }

    /** Player.EventListener.onPlayerStateChanged; `positionMillis` is the
        engine's position, read only on ENDED. */
    method OnPlayerStateChanged(playWhenReady: bool, playbackState: int, positionMillis: int)
      returns (thrown: Option<Exception>)
      requires Valid()
      modifies this, seekNotifier, handler
      ensures Valid()
      ensures Took(CoordinatorSpec.OnPlayerStateChanged(old(Abs()), playWhenReady, playbackState, positionMillis),
                   old(calls), thrown)
      ensures seekNotifier != old(seekNotifier) ==>
        || (seekNotifier == null && old(seekNotifier).instance == null && handler.queue == old(handler.queue))
        || (old(seekNotifier) == null && fresh(seekNotifier) && handler.queue == old(handler.queue) + [Posted(seekNotifier, 0)])
      ensures seekNotifier == old(seekNotifier) ==> handler.queue == old(handler.queue)
    {
      if playbackState == STATE_BUFFERING {
        thrown := AssertInitialized();
        if thrown.Some? {
          return;
        }
        if state == Initialized || state == Paused {
          thrown := PauseFrom(true);
        } else if state == Playing || state == BufferingInPlay {
          SetState(BufferingInPlay);
        } else {
          thrown := Some(IllegalState);
        }
      } else if playbackState == STATE_READY {
        thrown := AssertInitialized();
        if thrown.Some? {
          return;
        }
        if state == Initialized || state == BufferingInPause {
          thrown := PauseFrom(false);
        } else if state == BufferingInPlay {
          thrown := PlayFrom(true, true);
        }
      } else if playbackState == STATE_ENDED {
        thrown := OnEnded(positionMillis);
      } else if playbackState == STATE_IDLE {
        Destroy();
        thrown := None;
      } else {
        Destroy();
        thrown := Some(IllegalArgument);
      }
    }

    /** Player.EventListener.onPlayerError. */
    method OnPlayerError(error: Throwable)
      requires Valid()
      modifies this
      ensures Valid() && seekNotifier == old(seekNotifier)
      ensures Took(CoordinatorSpec.OnPlayerError(old(Abs()), error), old(calls), None)
    {
      DestroyWithError(error);
    }

    /** Player.EventListener.onTimelineChanged, given what it reads from the
        timeline. */
    method OnTimelineChanged(reason: int, t: Timeline) returns (thrown: Option<Exception>)
      requires Valid()
      modifies this
      ensures Valid() && seekNotifier == old(seekNotifier)
      ensures Took(CoordinatorSpec.OnTimelineChanged(old(Abs()), reason, t), old(calls), thrown)
    {
      if reason == TIMELINE_CHANGE_REASON_RESET || reason == TIMELINE_CHANGE_REASON_DYNAMIC {
        return Some(IllegalState);
      }
      if t.windowCount != 1 {
        DestroyWithError(UnsupportedOperation(MultiWindow));
        return None;
      }
      if !t.singlePeriod {
        DestroyWithError(UnsupportedOperation(MultiPeriod));
        return None;
      }
      if t.windowDurationMs == TIME_UNSET || t.windowIsDynamic {
        DestroyWithError(UnsupportedOperation(DynamicStream));
        return None;
      }
      thrown := SetTotalDuration(t.windowDurationMs);
    }

    /** MediaSourceEventListener.onLoadError. */
    method OnLoadError(error: Option<Throwable>, wasCanceled: bool)
      requires Valid()
      modifies this
      ensures Valid() && seekNotifier == old(seekNotifier) && Abs() == old(Abs())
      ensures calls == old(calls) + CoordinatorSpec.OnLoadError(old(Abs()), error, wasCanceled).effects
    {
      if state != Destroyed && !wasCanceled && error.Some? {
        calls := calls + [Listener(OnWarn(error.value))];
      }
    }
  }
}

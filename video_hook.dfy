/** Model of the video hook (src/hooks/useVideo.ts): one muted video element
    shared by the whole module, a React effect that binds a stream to it and
    installs a can-play-through handler, and a cleanup that pauses it.

    React's effect discipline is written out: `VideoEffect.Render` runs the
    previous cleanup and then the new effect whenever the dependencies
    `[mediaStream, onPlay]` changed since the last render. */
module VideoHook {
  import opened Media

  /** What happens to the video element, in order. `Played` and `Paused`
      record the source the element held at that moment. */
  datatype SinkEvent =
    | Attached(stream: Stream)
    | Played(source: Option<Stream>)
    | Paused(source: Option<Stream>)

  /** The installed `oncanplaythrough` closure: play, then call `onPlay`
      with the element if there is one. */
  datatype Handler = PlayThenNotify(onPlay: Option<Callback>)

  /** The dependency list of the effect. */
  datatype Deps = Deps(stream: Option<Stream>, onPlay: Option<Callback>)

  /** The stream most recently attached in `events`, if any. */
  function LastAttached(events: seq<SinkEvent>): (r: Option<Stream>)
    ensures r.Some? ==> Attached(r.value) in events
    ensures r.None? ==> forall e | e in events :: !e.Attached?
  {
    if events == [] then None
    else if events[|events| - 1].Attached? then Some(events[|events| - 1].stream)
    else LastAttached(events[..|events| - 1])
  }

  /** The most recently attached stream has been paused since it was
      attached (vacuously true before the first attach). */
  predicate Released(events: seq<SinkEvent>)
  {
    if events == [] then true
    else match events[|events| - 1]
      case Paused(_) => true
      case Attached(_) => false
      case Played(_) => Released(events[..|events| - 1])
  }

  /** Whether the element plays after `events`: a play starts it, and a
      pause or the load of a new source stops it. */
  predicate Playing(events: seq<SinkEvent>)
  {
    events != [] && events[|events| - 1].Played?
  }

  /** The history the cleanup-then-bind discipline produces: a stream is
      attached only once the previous one has been released and while the
      element is not playing, and every play or pause acts on the stream
      attached last. */
  predicate Disciplined(events: seq<SinkEvent>)
  {
    if events == [] then true
    else
      var before := events[..|events| - 1];
      Disciplined(before) &&
      match events[|events| - 1]
        case Attached(_) => Released(before) && !Playing(before)
        case Played(source) => source == LastAttached(before)
        case Paused(source) => source == LastAttached(before)
  }

  lemma {:induction false} DisciplinedPrefix(events: seq<SinkEvent>, n: nat)
    requires Disciplined(events) && n <= |events|
    ensures Disciplined(events[..n])
    decreases |events|
  {
    if n < |events| {
      var before := events[..|events| - 1];
      DisciplinedPrefix(before, n);
      assert before[..n] == events[..n];
    } else {
      assert events[..n] == events;
    }
  }

  lemma {:induction false} LastAttachedSince(events: seq<SinkEvent>, i: nat, k: nat)
    requires i < k <= |events| && events[i].Attached?
    requires forall l :: i < l < k ==> !events[l].Attached?
    ensures LastAttached(events[..k]) == Some(events[i].stream)
    decreases k
  {
    var p := events[..k];
    assert p[|p| - 1] == events[k - 1];
    if k > i + 1 {
      assert p[..|p| - 1] == events[..k - 1];
      LastAttachedSince(events, i, k - 1);
    }
  }

  lemma {:induction false} ReleasedFindsPause(events: seq<SinkEvent>, i: nat)
    requires Released(events) && i < |events| && events[i].Attached?
    requires forall l :: i < l < |events| ==> !events[l].Attached?
    ensures exists k :: i < k < |events| && events[k].Paused?
    decreases |events|
  {
    var n := |events|;
    if !events[n - 1].Paused? {
      var before := events[..n - 1];
      assert Released(before);
      assert before[i] == events[i];
      ReleasedFindsPause(before, i);
      var k :| i < k < |before| && before[k].Paused?;
      assert events[k] == before[k];
    }
  }

  /** What the discipline demands of the event at index `n`, given the
      events before it. */
  lemma {:induction false} DisciplinedAt(events: seq<SinkEvent>, n: nat)
    requires Disciplined(events) && n < |events|
    ensures events[n].Attached? ==> Released(events[..n]) && !Playing(events[..n])
    ensures !events[n].Attached? ==> events[n].source == LastAttached(events[..n])
  {
    DisciplinedPrefix(events, n + 1);
    var upto := events[..n + 1];
    assert upto[..n] == events[..n];
    assert upto[n] == events[n];
  }

  /** The case of two consecutive attaches: the discipline released the
      first stream before the second was attached. */
  lemma {:induction false} PausedBeforeNextAttach(events: seq<SinkEvent>, i: nat, j: nat)
    requires Disciplined(events)
    requires i < j < |events| && events[i].Attached? && events[j].Attached?
    requires forall l :: i < l < j ==> !events[l].Attached?
    ensures exists k :: i < k < j && events[k] == Paused(Some(events[i].stream))
  {
    DisciplinedAt(events, j);
    var before := events[..j];
    ReleasedFindsPause(before, i);
    var k :| i < k < |before| && before[k].Paused?;
    assert events[k] == before[k];
    DisciplinedAt(events, k);
    LastAttachedSince(events, i, k);
    assert events[k] == Paused(Some(events[i].stream));
  }

  /** Under the discipline, between any two attaches the element was paused
      while it still held the earlier stream: a stream is never replaced by
      the next one while it has not been paused. */
  lemma {:induction false} PausedBetweenAttaches(events: seq<SinkEvent>, i: nat, j: nat)
    requires Disciplined(events)
    requires i < j < |events| && events[i].Attached? && events[j].Attached?
    ensures exists k :: i < k < j && events[k] == Paused(Some(events[i].stream))
    decreases j - i
  {
    if m :| i < m < j && events[m].Attached? {
      PausedBetweenAttaches(events, i, m);
      var k :| i < k < m && events[k] == Paused(Some(events[i].stream));
      assert i < k < j;
    } else {
      PausedBeforeNextAttach(events, i, j);
    }
  }

  /** Under the discipline, the element is not playing at the moment a
      stream is attached. */
  lemma {:induction false} NotPlayingAtAttach(events: seq<SinkEvent>, j: nat)
    requires Disciplined(events)
    requires j < |events| && events[j].Attached?
    ensures !Playing(events[..j])
  {
    DisciplinedAt(events, j);
  }

  /** Under the discipline, every play after an attach and before the next
      one plays the stream attached: the old and the new stream never play
      at once. */
  lemma {:induction false} PlaysOnlyLatest(events: seq<SinkEvent>, i: nat, k: nat)
    requires Disciplined(events)
    requires i < k < |events| && events[i].Attached? && events[k].Played?
    requires forall l :: i < l < k ==> !events[l].Attached?
    ensures events[k] == Played(Some(events[i].stream))
  {
    DisciplinedAt(events, k);
    LastAttachedSince(events, i, k);
  }

  /** A pause of the stream attached last keeps the discipline and releases
      that stream. */
  lemma {:induction false} PauseKeepsDiscipline(events: seq<SinkEvent>, source: Option<Stream>)
    requires Disciplined(events) && source == LastAttached(events)
    ensures var after := events + [Paused(source)];
      Disciplined(after) && Released(after) && !Playing(after) && LastAttached(after) == source
  {
    var after := events + [Paused(source)];
    assert after[..|after| - 1] == events;
  }

  /** Attaching a stream once the last one is released and the element is
      not playing keeps the discipline, and the new stream is the one
      attached last. */
  lemma {:induction false} AttachKeepsDiscipline(events: seq<SinkEvent>, stream: Stream)
    requires Disciplined(events) && Released(events) && !Playing(events)
    ensures var after := events + [Attached(stream)];
      Disciplined(after) && !Playing(after) && LastAttached(after) == Some(stream)
  {
    var after := events + [Attached(stream)];
    assert after[..|after| - 1] == events;
  }

  /** An HTMLVideoElement: its source, its handler, whether it plays, its
      muted flag, its display size and the history of what was done to it. */
  class VideoElement {
    var srcObject: Option<Stream>
    var onCanPlayThrough: Option<Handler>
    var playing: bool
    var muted: bool
    var width: real
    var height: real
    var events: seq<SinkEvent>

    /** document.createElement("video") */
    constructor ()
      ensures srcObject == None && onCanPlayThrough == None
      ensures !playing && !muted && width == 0.0 && height == 0.0 && events == []
    {
      srcObject := None;
      onCanPlayThrough := None;
      playing := false;
      muted := false;
      width := 0.0;
      height := 0.0;
      events := [];
    }

    /** videoWidth: the intrinsic width of the source, 0 without one. */
    function VideoWidth(): nat
      reads this
    {
      if srcObject.Some? then srcObject.value.frameWidth else 0
    }

    /** videoHeight: the intrinsic height of the source, 0 without one. */
    function VideoHeight(): nat
      reads this
    {
      if srcObject.Some? then srcObject.value.frameHeight else 0
    }

    method Play()
      modifies this`playing, this`events
      ensures playing && events == old(events) + [Played(srcObject)]
    {
      playing := true;
      events := events + [Played(srcObject)];
    }

    method Pause()
      modifies this`playing, this`events
      ensures !playing && events == old(events) + [Paused(srcObject)]
    {
      playing := false;
      events := events + [Paused(srcObject)];
    }
  }

  /** The module-level state of useVideo.ts: the single `video` element. */
  class VideoModule {
    const video: VideoElement?

    /** The element stays muted, and it plays exactly when its history says
        so. */
    ghost predicate Valid()
      reads this, video
    {
      video != null ==> video.muted && video.playing == Playing(video.events)
    }

    /** Evaluating the module: outside a browser the element is null; in a
        browser it is created once and muted. `video` is a constant, so every
        later use sees this one element. */
    constructor Load(isBrowser: bool)
      ensures Valid()
      ensures video != null <==> isBrowser
      ensures video != null ==> fresh(video) && video.muted && !video.playing
      ensures video != null ==> video.srcObject == None && video.onCanPlayThrough == None && video.events == []
    {
      if isBrowser {
        var v := new VideoElement();
        v.muted := true;
        video := v;
      } else {
        video := null;
      }
    }

    /** The element signals that it can play through: the installed handler
        plays it, then hands back the onPlay to be called with the element. */
    method DispatchCanPlayThrough() returns (notify: Option<Callback>)
      requires Valid()
      modifies video
      ensures Valid()
      ensures video == null || old(video.onCanPlayThrough).None? ==> notify == None
      ensures video != null && old(video.onCanPlayThrough).None? ==> unchanged(video)
      ensures video != null && old(video.onCanPlayThrough).Some? ==>
        && video.playing
        && video.events == old(video.events) + [Played(video.srcObject)]
        && notify == old(video.onCanPlayThrough).value.onPlay
      ensures video != null ==>
        && video.srcObject == old(video.srcObject)
        && video.onCanPlayThrough == old(video.onCanPlayThrough)
        && video.muted == old(video.muted)
        && video.width == old(video.width) && video.height == old(video.height)
    {
      notify := None;
      if video != null && video.onCanPlayThrough.Some? {
        var handler := video.onCanPlayThrough.value;
        video.Play();
        notify := handler.onPlay;
      }
    }
  }

  /** The element's history is disciplined, its source is the stream
      attached last, and when no cleanup is pending that stream has been
      released. */
  ghost predicate Bound(host: VideoModule, pending: bool)
    reads host, host.video
  {
    && host.Valid()
    && (pending ==> host.video != null)
    && (host.video != null ==>
          && Disciplined(host.video.events)
          && host.video.srcObject == LastAttached(host.video.events)
          && (!pending ==> Released(host.video.events)))
  }

  /** One call site of useVideo: the effect's last dependencies and whether
      it left a cleanup to run. */
  class VideoEffect {
    const host: VideoModule
    var deps: Option<Deps>
    var cleanupPending: bool

    ghost predicate Valid()
      reads this, host, host.video
    {
      Bound(host, cleanupPending)
    }

    /** A new call site (a newly mounted component) over the module's
        element, which an earlier call site may have used and cleaned up. */
    constructor (host: VideoModule)
      requires Bound(host, false)
      ensures Valid() && this.host == host && deps == None && !cleanupPending
    {
      this.host := host;
      deps := None;
      cleanupPending := false;
    }

    /** The effect body: a no-op without an element or without a stream;
        otherwise the stream becomes the source and the handler is replaced.
        Assigning the source runs the media element load algorithm, which
        pauses an element that is playing. Returns whether a cleanup was
        registered. */
    method Bind(stream: Option<Stream>, onPlay: Option<Callback>) returns (registered: bool)
      requires Bound(host, false)
      modifies host.video
      ensures Bound(host, registered)
      ensures registered <==> host.video != null && stream.Some?
      ensures host.video != null && !registered ==> unchanged(host.video)
      ensures registered ==>
        && host.video.srcObject == stream
        && host.video.onCanPlayThrough == Some(PlayThenNotify(onPlay))
        && host.video.events == old(host.video.events)
             + (if old(host.video.playing) then [Paused(old(host.video.srcObject))] else [])
             + [Attached(stream.value)]
        && !host.video.playing
        && host.video.muted == old(host.video.muted)
        && host.video.width == old(host.video.width) && host.video.height == old(host.video.height)
    {
      var video := host.video;
      if video == null {
        return false;
      }
      if stream.None? {
        return false;
      }
      if video.playing {
        PauseKeepsDiscipline(video.events, video.srcObject);
        video.Pause();
      }
      AttachKeepsDiscipline(video.events, stream.value);
      video.srcObject := stream;
      video.events := video.events + [Attached(stream.value)];
      video.onCanPlayThrough := Some(PlayThenNotify(onPlay));
      registered := true;
    }

    /** The cleanup the effect returns: pause the element if there is one. */
    method Cleanup()
      requires Valid()
      modifies host.video
      ensures Bound(host, false)
      ensures host.video != null ==>
        && !host.video.playing
        && host.video.events == old(host.video.events) + [Paused(host.video.srcObject)]
        && host.video.srcObject == old(host.video.srcObject)
        && host.video.onCanPlayThrough == old(host.video.onCanPlayThrough)
        && host.video.muted == old(host.video.muted)
        && host.video.width == old(host.video.width) && host.video.height == old(host.video.height)
    {
      var video := host.video;
      if video == null {
        return;
      }
      video.Pause();
    }

    /** One render of the hook: when the dependencies changed, run the
        pending cleanup, then the effect. Returns the shared element. */
    method Render(stream: Option<Stream>, onPlay: Option<Callback>) returns (sink: VideoElement?)
      requires Valid()
      modifies this, host.video
      ensures Valid()
      ensures sink == host.video
      ensures deps == Some(Deps(stream, onPlay))
      ensures old(deps) == Some(Deps(stream, onPlay)) ==>
        cleanupPending == old(cleanupPending) && (host.video != null ==> unchanged(host.video))
      ensures old(deps) != Some(Deps(stream, onPlay)) ==>
        cleanupPending == (host.video != null && stream.Some?)
      ensures old(deps) != Some(Deps(stream, onPlay)) && host.video != null ==>
        var stillPlaying := old(host.video.playing) && !old(cleanupPending);
        && host.video.events == old(host.video.events)
             + (if old(cleanupPending) then [Paused(old(host.video.srcObject))] else [])
             + (if stream.None? then []
                else (if stillPlaying then [Paused(old(host.video.srcObject))] else []) + [Attached(stream.value)])
        && host.video.srcObject == (if stream.Some? then stream else old(host.video.srcObject))
        && host.video.onCanPlayThrough ==
             (if stream.Some? then Some(PlayThenNotify(onPlay)) else old(host.video.onCanPlayThrough))
        && host.video.playing == (stillPlaying && stream.None?)
        && host.video.muted == old(host.video.muted)
        && host.video.width == old(host.video.width) && host.video.height == old(host.video.height)
    {
      if deps != Some(Deps(stream, onPlay)) {
        if cleanupPending {
          Cleanup();
          cleanupPending := false;
        }
        var registered := Bind(stream, onPlay);
        cleanupPending := registered;
        deps := Some(Deps(stream, onPlay));
      }
      sink := host.video;
    }

    /** The component is removed: run the pending cleanup, if any. */
    method Unmount()
      requires Valid()
      modifies this`cleanupPending, host.video
      ensures Valid() && !cleanupPending
      ensures host.video != null ==>
        && host.video.events == old(host.video.events)
             + (if old(cleanupPending) then [Paused(old(host.video.srcObject))] else [])
        && host.video.srcObject == old(host.video.srcObject)
        && host.video.onCanPlayThrough == old(host.video.onCanPlayThrough)
        && host.video.playing == (old(host.video.playing) && !old(cleanupPending))
        && host.video.muted == old(host.video.muted)
        && host.video.width == old(host.video.width) && host.video.height == old(host.video.height)
    {
      if cleanupPending {
        Cleanup();
        cleanupPending := false;
      }
    }
  }

  /** Stream A is bound and plays; the next render binds stream B. A is
      paused before B becomes the source, and the handler is B's. */
  method RebindScenario() returns (events: seq<SinkEvent>, handler: Option<Handler>)
    ensures events == [
      Attached(Stream(1, 640, 480)), Played(Some(Stream(1, 640, 480))),
      Paused(Some(Stream(1, 640, 480))), Attached(Stream(2, 1280, 720))]
    ensures handler == Some(PlayThenNotify(Some(Callback(1))))
  {
    var a, b := Stream(1, 640, 480), Stream(2, 1280, 720);
    var videos := new VideoModule.Load(true);
    var effect := new VideoEffect(videos);
    var sink := effect.Render(Some(a), Some(Callback(0)));
    var notify := videos.DispatchCanPlayThrough();
    assert notify == Some(Callback(0));
    sink := effect.Render(Some(b), Some(Callback(1)));
    events := sink.events;
    handler := sink.onCanPlayThrough;
  }

  /** A render without a stream leaves the previous handler installed, so a
      later can-play-through still calls the superseded onPlay and plays the
      old stream; binding the next stream then pauses it through the load
      algorithm before the attach. */
  method StaleHandlerScenario() returns (events: seq<SinkEvent>, playing: bool, notify: Option<Callback>)
    ensures events == [
      Attached(Stream(1, 640, 480)), Paused(Some(Stream(1, 640, 480))), Played(Some(Stream(1, 640, 480))),
      Paused(Some(Stream(1, 640, 480))), Attached(Stream(2, 1280, 720))]
    ensures !playing && notify == Some(Callback(0))
  {
    var effect;
    effect, notify := PlayedAfterUnbind();
    var sink := effect.Render(Some(Stream(2, 1280, 720)), Some(Callback(2)));
    events := sink.events;
    playing := sink.playing;
  }

  /** The first part of the scenario above: stream A is bound, a render
      without a stream follows, and the element then can play through. */
  method PlayedAfterUnbind() returns (effect: VideoEffect, notify: Option<Callback>)
    ensures effect.Valid() && effect.host.video != null && !effect.cleanupPending
    ensures fresh(effect) && fresh(effect.host) && fresh(effect.host.video)
    ensures effect.deps == Some(Deps(None, Some(Callback(1))))
    ensures effect.host.video.events == [
      Attached(Stream(1, 640, 480)), Paused(Some(Stream(1, 640, 480))), Played(Some(Stream(1, 640, 480)))]
    ensures effect.host.video.playing && effect.host.video.srcObject == Some(Stream(1, 640, 480))
    ensures notify == Some(Callback(0))
  {
    var a := Stream(1, 640, 480);
    var videos := new VideoModule.Load(true);
    effect := new VideoEffect(videos);
    var sink := effect.Render(Some(a), Some(Callback(0)));
    assert sink.events == [Attached(a)] && !sink.playing;
    sink := effect.Render(None, Some(Callback(1)));
    assert sink.events == [Attached(a), Paused(Some(a))] && !effect.cleanupPending;
    notify := videos.DispatchCanPlayThrough();
  }

  /** Outside a browser there is no element: binding, dispatching and
      cleaning up are all no-ops. */
  method NoBrowserScenario() returns (sink: VideoElement?, pending: bool, notify: Option<Callback>)
    ensures sink == null && !pending && notify == None
  {
    var videos := new VideoModule.Load(false);
    var effect := new VideoEffect(videos);
    sink := effect.Render(Some(Stream(1, 640, 480)), Some(Callback(0)));
    notify := videos.DispatchCanPlayThrough();
    pending := effect.cleanupPending;
  }
}
